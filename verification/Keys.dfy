/** The idempotency keys of a session's messages (store/message.go) and the workflow IDs of its
    background tasks (store/background_task.go): strings that carry who wrote what. */
module Keys {
  import opened Text

  /** What a turn key says: the message answered (the anchor) and who answers it. */
  datatype Turn = Turn(anchor: int, participant: string)

  /** Who a participant may be: not empty, no dot, no colon. */
  predicate ValidParticipant(p: string) {
    p != "" && '.' !in p && ':' !in p
  }

  predicate ValidTurn(t: Turn) {
    0 <= t.anchor <= MAX_INT64 && ValidParticipant(t.participant)
  }

  function TurnKey(messageID: int, participant: string): string {
    "m" + Itoa(messageID) + "." + participant
  }

  /** The turn whose key this is: 64-bit digits between "m" and a dot, then a valid participant; None for the rest. */
  function ParseTurn(turn: string): Option<Turn> {
    if turn == "" || turn[0] != 'm' then None else
    var rest := turn[1..];
    var dot := IndexOf(rest, '.');
    if dot == |rest| || !AllDigits(rest[..dot]) then None else
    var anchor, participant := NumberOf(rest[..dot]), rest[dot + 1..];
    if anchor > MAX_INT64 || !ValidParticipant(participant) then None
    else Some(Turn(anchor, participant))
  }

  function TurnMessageKey(turnKey: string, index: int): string { turnKey + ":" + Itoa(index) }

  function TurnEndKey(turnKey: string): string { turnKey + ":" + "end" }

  function HumanMessageKey(id: string): string { "msg:" + id }

  function ScheduledMessageKey(scheduleID: string, runUnixMilli: int): string {
    "sched:" + scheduleID + ":" + Itoa(runUnixMilli)
  }

  function ForkReportKey(fork: string, from: int, upTo: int): string {
    "report:" + fork + ":" + Itoa(from) + "-" + Itoa(upTo)
  }

  function TaskResultKey(taskID: string): string { "task:" + taskID }

  const FORK_SUMMARY_KEY := "fork-summary:0"

  /** What comes before the last colon, when digits or "end" come after it and it parses as a turn's key. */
  function TurnOf(key: string): Option<string> {
    var i := LastIndexOf(key, ':');
    if i <= 0 then None
    else if key[i + 1..] != "end" && !AllDigits(key[i + 1..]) then None
    else if ParseTurn(key[..i]).None? then None
    else Some(key[..i])
  }

  predicate IsTurnEnd(key: string) {
    TurnOf(key).Some? && key == TurnEndKey(TurnOf(key).value)
  }

  // --- What is read as a turn's key, exactly ---

  /** digits and participant are the parts of a turn's key. */
  predicate Parts(digits: string, participant: string) {
    && AllDigits(digits) && NumberOf(digits) <= 9_223_372_036_854_775_807
    && participant != "" && '.' !in participant && ':' !in participant
  }

  ghost predicate Spells(turn: string, t: Turn, digits: string) {
    Parts(digits, t.participant) && turn == "m" + digits + "." + t.participant && t.anchor == NumberOf(digits)
  }

  lemma ParsedSpells(turn: string, t: Turn) returns (digits: string)
    requires ParseTurn(turn) == Some(t)
    ensures Spells(turn, t, digits)
  {
    var rest := turn[1..];
    var dot := IndexOf(rest, '.');
    digits := rest[..dot];
    assert turn == "m" + rest && rest == digits + "." + t.participant;
  }

  lemma SpelledParses(turn: string, t: Turn, digits: string)
    requires Spells(turn, t, digits)
    ensures ParseTurn(turn) == Some(t)
  {
    DigitsHoldNo(digits, '.');
    DotParts(digits, t.participant);
    assert turn[0] == 'm';
  }

  /** A string reads as a turn exactly when it is "m", digits that make a 64-bit number, a dot, and a participant without
      dot or colon. */
  lemma ParsedTurn(turn: string, t: Turn)
    ensures ParseTurn(turn) == Some(t) <==> exists digits :: Spells(turn, t, digits)
  {
    if ParseTurn(turn) == Some(t) { var digits := ParsedSpells(turn, t); }
    if exists digits :: Spells(turn, t, digits) {
      var digits :| Spells(turn, t, digits);
      SpelledParses(turn, t, digits);
    }
  }

  /** A stored key is of the turn turn exactly when it is its key, a colon, and digits or "end". */
  lemma KeyOfTurn(key: string, turn: string)
    ensures TurnOf(key) == Some(turn) <==> ParseTurn(turn).Some? && exists last :: key == turn + ":" + last && (last == "end" || AllDigits(last))
    ensures IsTurnEnd(key) && TurnOf(key) == Some(turn) <==> ParseTurn(turn).Some? && key == turn + ":" + "end"
  {
    if TurnOf(key) == Some(turn) {
      var i := LastIndexOf(key, ':');
      assert key == key[..i] + ":" + key[i + 1..];
    }
    if exists last :: key == turn + ":" + last && (last == "end" || AllDigits(last)) {
      var last :| key == turn + ":" + last && (last == "end" || AllDigits(last));
      if last != "end" { DigitsHoldNo(last, ':'); }
      TurnOfSplit(turn, last);
    }
    TurnOfSplit(turn, "end");
  }

  /** The keys as they are spelled. */
  lemma Spelled()
    ensures TurnKey(12, "jarvis") == "m12.jarvis" && TurnMessageKey("m12.jarvis", 3) == "m12.jarvis:3"
    ensures TurnEndKey("m12.jarvis") == "m12.jarvis:end" && HumanMessageKey("a") == "msg:a" && TaskResultKey("t") == "task:t"
    ensures ScheduledMessageKey("s", 50) == "sched:s:50" && ForkReportKey("f", 0, 71) == "report:f:0-71" && Itoa(-4) == "-4"
  {
    assert Decimal(1) == "1" && Decimal(5) == "5" && Decimal(7) == "7";
  }

  // --- A turn's keys ---

  /** A turn key reads back exactly when its message ID is not negative and its participant valid. */
  lemma ParseOfTurnKey(messageID: int, participant: string)
    requires messageID <= MAX_INT64
    ensures ParseTurn(TurnKey(messageID, participant))
         == if messageID >= 0 && ValidParticipant(participant) then Some(Turn(messageID, participant)) else None
  {
    var digits := Itoa(messageID);
    ItoaHoldsNo(messageID, '.');
    DotParts(digits, participant);
    if messageID >= 0 { NumberOfDecimal(messageID); }
  }

  lemma DotParts(digits: string, participant: string)
    requires '.' !in digits
    ensures var rest := ("m" + digits + "." + participant)[1..];
      && IndexOf(rest, '.') == |digits| < |rest|
      && rest[..|digits|] == digits
      && rest[|digits| + 1..] == participant
  {
    var rest := digits + ['.'] + participant;
    assert ("m" + digits + "." + participant)[1..] == rest;
    IndexOfConcat(digits, '.', participant);
  }

  lemma ItoaHoldsNo(n: int, c: char)
    requires !('0' <= c <= '9') && c != '-'
    ensures c !in Itoa(n)
  {
    if n < 0 {
      DigitsHoldNo(Decimal(-n), c);
    }
  }

  lemma TurnKeyParts(a: int, p: string)
    ensures TurnKey(a, p)[1..] == Itoa(a) + ['.'] + p
  {
  }

  /** Two turns share a key only when they are the same turn. */
  lemma TurnKeyInjective(a: int, p: string, b: int, q: string)
    requires TurnKey(a, p) == TurnKey(b, q)
    ensures a == b && p == q
  {
    var s, t := Itoa(a), Itoa(b);
    ItoaHoldsNo(a, '.');
    ItoaHoldsNo(b, '.');
    TurnKeyParts(a, p);
    TurnKeyParts(b, q);
    SplitFirst(s, p, t, q, '.');
    ItoaInjective(a, b);
  }

  /** What TurnOf makes of a key that is a prefix and a last part without colon. */
  lemma TurnOfSplit(turn: string, last: string)
    requires ':' !in last
    ensures TurnOf(turn + ":" + last)
         == if ParseTurn(turn).Some? && (last == "end" || AllDigits(last)) then Some(turn) else None
  {
    var key := turn + [':'] + last;
    LastIndexOfConcat(turn, ':', last);
    assert key[..|turn|] == turn && key[|turn| + 1..] == last;
  }

  /** A message's key gives its turn back exactly when the turn and the index are ones a turn has. */
  lemma TurnOfMessageKey(messageID: int, participant: string, index: int)
    requires messageID <= MAX_INT64
    ensures TurnOf(TurnMessageKey(TurnKey(messageID, participant), index))
         == if messageID >= 0 && ValidParticipant(participant) && index >= 0
            then Some(TurnKey(messageID, participant)) else None
    ensures !IsTurnEnd(TurnMessageKey(TurnKey(messageID, participant), index))
  {
    var turn := TurnKey(messageID, participant);
    ItoaHoldsNo(index, ':');
    TurnOfSplit(turn, Itoa(index));
    ParseOfTurnKey(messageID, participant);
    EndIsNoMessage(turn, turn, index);
  }

  /** And so does its end's, which is told from every indexed key. */
  lemma TurnOfEndKey(messageID: int, participant: string)
    requires messageID <= MAX_INT64
    ensures TurnOf(TurnEndKey(TurnKey(messageID, participant)))
         == if messageID >= 0 && ValidParticipant(participant) then Some(TurnKey(messageID, participant)) else None
    ensures IsTurnEnd(TurnEndKey(TurnKey(messageID, participant))) <==> messageID >= 0 && ValidParticipant(participant)
  {
    TurnOfSplit(TurnKey(messageID, participant), "end");
    ParseOfTurnKey(messageID, participant);
  }

  /** An end is out of the indexes of a turn's messages, of any turn. */
  lemma EndIsNoMessage(turn: string, other: string, index: int)
    ensures TurnEndKey(turn) != TurnMessageKey(other, index)
  {
    var e, m, i := TurnEndKey(turn), TurnMessageKey(other, index), Itoa(index);
    assert e[|e| - 1] == 'd';
    assert m[|m| - 1] == i[|i| - 1];
    assert index < 0 ==> i[|i| - 1] == Decimal(-index)[|i| - 2];
  }

  /** A key that starts as no turn key does is no turn's. */
  lemma NoTurnKey(key: string)
    requires |key| >= 2 && ':' !in key[..2]
    requires key[0] != 'm' || !('0' <= key[1] <= '9')
    requires key[0] != 'm' || key[1] != '.'
    ensures TurnOf(key) == None
  {
    var i := LastIndexOf(key, ':');
    if i > 0 {
      assert i >= 2 by { assert forall j :: 0 <= j < 2 ==> key[j] == key[..2][j]; }
      var turn := key[..i];
      var rest := turn[1..];
      var dot := IndexOf(rest, '.');
      assert turn[0] == key[0] && rest[0] == key[1];
      assert dot > 0 ==> rest[..dot][0] == key[1];
    }
  }

  // --- The keys a session's messages are stored under ---

  /** Every way the program builds a message's key. */
  datatype Key =
    | Human(id: string)
    | Scheduled(schedule: string, run: int)
    | Report(fork: string, from: int, upTo: int)
    | Task(task: string)
    | Summary
    | Produced(turn: Turn, index: int)
    | End(turn: Turn)
  {
    /** The turn that wrote the message; None for one no turn wrote. */
    function Writer(): Option<Turn> {
      match this
      case Produced(t, _) => Some(t)
      case End(t) => Some(t)
      case _ => None
    }
  }

  /** The keys the program asks for: a turn's index and a report's range are never negative. */
  predicate ValidKey(k: Key) {
    match k
    case Produced(t, index) => ValidTurn(t) && index >= 0
    case End(t) => ValidTurn(t)
    case Report(_, from, upTo) => from >= 0 && upTo >= 0
    case _ => true
  }

  function Encode(k: Key): string {
    match k
    case Human(id) => HumanMessageKey(id)
    case Scheduled(schedule, run) => ScheduledMessageKey(schedule, run)
    case Report(fork, from, upTo) => ForkReportKey(fork, from, upTo)
    case Task(task) => TaskResultKey(task)
    case Summary => FORK_SUMMARY_KEY
    case Produced(t, index) => TurnMessageKey(TurnKey(t.anchor, t.participant), index)
    case End(t) => TurnEndKey(TurnKey(t.anchor, t.participant))
  }

  /** The stored string tells which turn wrote the message, and reads as a turn's for no other writer. */
  lemma WriterOfEncoded(k: Key)
    requires ValidKey(k)
    ensures TurnOf(Encode(k))
         == match k.Writer() case Some(t) => Some(TurnKey(t.anchor, t.participant)) case None => None
    ensures IsTurnEnd(Encode(k)) <==> k.End?
    ensures k.Writer().Some? ==> ParseTurn(TurnOf(Encode(k)).value) == k.Writer()
  {
    match k
    case Produced(t, index) =>
      TurnOfMessageKey(t.anchor, t.participant, index);
      ParseOfTurnKey(t.anchor, t.participant);
    case End(t) =>
      TurnOfEndKey(t.anchor, t.participant);
      ParseOfTurnKey(t.anchor, t.participant);
    case _ =>
      NoTurnKey(Encode(k));
  }

  /** Two messages share a stored key only when every part of it is the same: families never mix. */
  lemma EncodeInjective(k: Key, l: Key)
    requires ValidKey(k) && ValidKey(l)
    requires Encode(k) == Encode(l)
    ensures k == l
  {
    WriterOfEncoded(k);
    WriterOfEncoded(l);
    match k
    case Produced(t, i) =>
      assert l.Produced?;
      ItoaHoldsNo(i, ':');
      ItoaHoldsNo(l.index, ':');
      SplitLast(TurnKey(t.anchor, t.participant), Itoa(i), TurnKey(l.turn.anchor, l.turn.participant), Itoa(l.index), ':');
      TurnKeyInjective(t.anchor, t.participant, l.turn.anchor, l.turn.participant);
      ItoaInjective(i, l.index);
    case End(t) =>
      assert l.End?;
      TurnKeyInjective(t.anchor, t.participant, l.turn.anchor, l.turn.participant);
    case Human(id) =>
      assert Encode(k)[1] == 's' && Encode(k)[0] == 'm';
      assert l.Human?;
      assert Encode(k)[4..] == id && Encode(l)[4..] == l.id;
    case Task(id) =>
      assert Encode(k)[0] == 't';
      assert l.Task?;
      assert Encode(k)[5..] == id && Encode(l)[5..] == l.task;
    case Summary =>
      assert Encode(k)[0] == 'f';
      assert l.Summary?;
    case Scheduled(schedule, run) =>
      assert Encode(k)[0] == 's';
      assert l.Scheduled?;
      ItoaHoldsNo(run, ':');
      ItoaHoldsNo(l.run, ':');
      SplitLast("sched:" + schedule, Itoa(run), "sched:" + l.schedule, Itoa(l.run), ':');
      assert ("sched:" + schedule)[6..] == schedule && ("sched:" + l.schedule)[6..] == l.schedule;
      ItoaInjective(run, l.run);
    case Report(_, _, _) =>
      assert Encode(k)[0] == 'r';
      assert l.Report?;
      ReportInjective(k, l);
  }

  lemma ReportInjective(k: Key, l: Key)
    requires ValidKey(k) && ValidKey(l) && k.Report? && l.Report?
    requires Encode(k) == Encode(l)
    ensures k == l
  {
    var a, b := Itoa(k.from) + ['-'] + Itoa(k.upTo), Itoa(l.from) + ['-'] + Itoa(l.upTo);
    RangeHoldsNoColon(k.from, k.upTo);
    RangeHoldsNoColon(l.from, l.upTo);
    assert Encode(k) == "report:" + k.fork + [':'] + a;
    assert Encode(l) == "report:" + l.fork + [':'] + b;
    SplitLast("report:" + k.fork, a, "report:" + l.fork, b, ':');
    assert ("report:" + k.fork)[7..] == k.fork && ("report:" + l.fork)[7..] == l.fork;
    DigitsHoldNo(Itoa(k.from), '-');
    DigitsHoldNo(Itoa(l.from), '-');
    SplitFirst(Itoa(k.from), Itoa(k.upTo), Itoa(l.from), Itoa(l.upTo), '-');
    ItoaInjective(k.from, l.from);
    ItoaInjective(k.upTo, l.upTo);
  }

  lemma RangeHoldsNoColon(from: int, upTo: int)
    ensures ':' !in Itoa(from) + ['-'] + Itoa(upTo)
  {
    ItoaHoldsNo(from, ':');
    ItoaHoldsNo(upTo, ':');
  }

  // --- Background tasks ---

  const BG_MARK := ":bg:"

  /** Whether p stands at index i of s. */
  predicate At(s: string, p: string, i: int) {
    0 <= i <= |s| - |p| && s[i..i + |p|] == p
  }

  /** strings.Index: where p first stands in s at i or after, -1 when nowhere. */
  function IndexOfMark(s: string, p: string, i: nat): (r: int)
    requires i <= |s|
    ensures r == -1 || (i <= r && At(s, p, r))
    ensures forall j :: i <= j && (r == -1 || j < r) ==> !At(s, p, j)
    decreases |s| - i
  {
    if At(s, p, i) then i else if i == |s| then -1 else IndexOfMark(s, p, i + 1)
  }

  function BackgroundTaskID(turnWorkflowID: string, callID: string): string {
    turnWorkflowID + BG_MARK + callID
  }

  /** The background task a workflow belongs to: its own ID, or that of a workflow it started. */
  function TaskOfWorkflow(workflowID: string): Option<string> {
    var i := IndexOfMark(workflowID, BG_MARK, 0);
    if i <= 0 then None else
    var rest := workflowID[i + |BG_MARK|..];
    var call := rest[..IndexOf(rest, ':')];
    if call == "" then None else Some(workflowID[..i + |BG_MARK| + |call|])
  }

  /** What a turn's workflow ID and a call's ID must be for their task to be recovered. */
  predicate Recoverable(turn: string, call: string) {
    turn != "" && call != "" && ':' !in call && forall j :: 0 <= j < |turn| ==> !At(turn + ":", BG_MARK, j)
  }

  /** A task's ID is recovered from its own workflow's ID and from that of every workflow it started,
      exactly when the call's ID is not empty and holds no colon, and the turn's is not empty, holds no
      mark and does not end as one begins. */
  lemma TaskOfWorkflowRecovers(turn: string, call: string, child: string)
    requires child == "" || child[0] == ':'
    ensures TaskOfWorkflow(BackgroundTaskID(turn, call) + child) == Some(BackgroundTaskID(turn, call))
       <==> Recoverable(turn, call)
  {
    var w := turn + BG_MARK + (call + child);
    assert w == BackgroundTaskID(turn, call) + child;
    assert At(w, BG_MARK, |turn|) by { assert w[|turn|..|turn| + 4] == BG_MARK; }
    var i := IndexOfMark(w, BG_MARK, 0);
    MarksBefore(turn, call + child);
    if i == |turn| {
      CallEnds(call, child);
      assert w[i + 4..] == call + child;
      assert turn + BG_MARK + call == w[..i + 4 + |call|];
    } else {
      assert At(turn + ":", BG_MARK, i);
      ColonInside(w, i + 4, |turn| + 3);
    }
  }

  /** The part of a task's own ID that its call makes, and where a child's part begins. */
  lemma CallEnds(call: string, child: string)
    requires child == "" || child[0] == ':'
    ensures ':' !in call ==> IndexOf(call + child, ':') == |call| && (call + child)[..|call|] == call
    ensures ':' in call ==> IndexOf(call + child, ':') < |call|
  {
    var s := call + child;
    var n := IndexOf(s, ':');
    assert forall j :: 0 <= j < n ==> s[j] in s[..n];
    assert forall j :: 0 <= j < |call| ==> s[j] == call[j];
    assert forall j :: 0 <= j < |call| ==> call[j] in call;
    assert child != "" ==> s[|call|] == ':';
  }

  lemma ColonInside(w: string, from: nat, at: nat)
    requires from <= at < |w| && w[at] == ':'
    ensures IndexOf(w[from..], ':') <= at - from
  {
    var rest := w[from..];
    var n := IndexOf(rest, ':');
    assert rest[at - from] == ':';
    assert forall j :: 0 <= j < n ==> rest[j] in rest[..n];
  }

  /** The marks that start inside the turn's ID, before the task's own. */
  lemma MarksBefore(turn: string, rest: string)
    ensures forall j :: 0 <= j < |turn| ==> (At(turn + BG_MARK + rest, BG_MARK, j) <==> At(turn + ":", BG_MARK, j))
  {
    var w, t := turn + BG_MARK + rest, turn + ":";
    forall j | 0 <= j < |turn|
      ensures At(w, BG_MARK, j) <==> At(t, BG_MARK, j)
    {
      if j + 4 <= |t| {
        assert w[j..j + 4] == t[j..j + 4];
      } else {
        assert w[j..j + 4][|turn| - j] == ':' && w[j..j + 4][|turn| + 1 - j] == 'b';
      }
    }
  }
}
