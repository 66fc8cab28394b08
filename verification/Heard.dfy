/** Nothing said is lost on the way to the model (conversation/convert.go): the words of people and of other
    agents, and the reader's own calls and results, each where it was said, and nothing else. */
module Heard {
  import opened Text
  import opened Messages
  import opened Convert
  import opened Reading

  // --- Where something stands in what the model reads ---

  /** text stands in the k-th message of out, a user's text, from its at-th character on. */
  predicate Stands(out: seq<ChatMessage>, k: nat, at: nat, text: string) {
    && k < |out| && out[k].role == User && out[k].calls == [] && out[k].result == None && out[k].content.Plain?
    && at + |text| <= |out[k].content.text| && out[k].content.text[at..at + |text|] == text
  }

  datatype Place = Place(k: nat, at: nat)

  predicate Shows(out: seq<ChatMessage>, p: Place, r: Convert.Reading) {
    match r
    case Words(text) => Stands(out, p.k, p.at, text)
    case Block(cm) => p.k < |out| && p.at == 0 && out[p.k] == cm && PlainUserText(cm).None?
  }

  /** What stands at p, r, is before what stands at q. */
  predicate Precedes(p: Place, r: Convert.Reading, q: Place) {
    p.k < q.k || (p.k == q.k && r.Words? && p.at + |r.text| <= q.at)
  }

  lemma PartOf(text: string, more: string, at: nat, upTo: nat)
    requires at <= upTo <= |text|
    ensures (text + more)[at..upTo] == text[at..upTo]
  {
  }

  lemma EndOf(before: string, text: string)
    ensures (before + text)[|before|..|before| + |text|] == text
  {
  }

  lemma WordsStay(out: seq<ChatMessage>, text: string, p: Place, r: Convert.Reading)
    requires Shows(out, p, r)
    ensures Shows(AppendUserText(out, text), p, r)
  {
    var n := |out| - 1;
    if text != "" && PlainUserText(out[n]).Some? && p.k == n && r.Words? {
      PartOf(out[n].content.text, "\n\n" + text, p.at, p.at + |r.text|);
      assert out[n].content.text + "\n\n" + text == out[n].content.text + ("\n\n" + text);
    }
  }

  lemma WordsStand(out: seq<ChatMessage>, text: string) returns (q: Place)
    requires text != ""
    ensures Shows(AppendUserText(out, text), q, Words(text))
    ensures forall p, r :: Shows(out, p, r) ==> Precedes(p, r, q)
  {
    var n := |out| - 1;
    if n >= 0 && PlainUserText(out[n]).Some? {
      var before := PlainUserText(out[n]).value + "\n\n";
      EndOf(before, text);
      q := Place(n, |before|);
    } else {
      assert text[0..|text|] == text;
      q := Place(n + 1, 0);
    }
  }

  /** A message leaves what was read before it where it was, and stands after all of it. */
  lemma SaidNow(v: View, c: Calls, out: seq<ChatMessage>, m: Message) returns (q: Place)
    requires Read(v, c, m) != Words("")
    ensures Shows(Step(v, c, out, m), q, Read(v, c, m))
    ensures forall p, r :: Shows(out, p, r) ==> Precedes(p, r, q)
  {
    match Read(v, c, m)
    case Words(text) => q := WordsStand(out, text);
    case Block(cm) => q := Place(|out|, 0);
  }

  lemma SaidStays(v: View, c: Calls, out: seq<ChatMessage>, m: Message, p: Place, r: Convert.Reading)
    requires Shows(out, p, r)
    ensures Shows(Step(v, c, out, m), p, r)
  {
    match Read(v, c, m)
    case Words(text) => WordsStay(out, text, p, r);
    case Block(cm) =>
  }

  /** Every message that says something stands in what the model reads. */
  lemma {:induction false} Said(v: View, c: Calls, ms: seq<Message>, i: nat) returns (p: Place)
    requires i < |ms| && Read(v, c, ms[i]) != Words("")
    ensures Shows(Translate(v, c, ms), p, Read(v, c, ms[i]))
  {
    var n := |ms| - 1;
    if i == n {
      p := SaidNow(v, c, Translate(v, c, ms[..n]), ms[n]);
    } else {
      p := Said(v, c, ms[..n], i);
      SaidStays(v, c, Translate(v, c, ms[..n]), ms[n], p, Read(v, c, ms[i]));
    }
  }

  /** And before what was said later. */
  lemma {:induction false} SaidInOrder(v: View, c: Calls, ms: seq<Message>, i: nat, j: nat, r: Convert.Reading, s: Convert.Reading) returns (p: Place, q: Place)
    requires i < j < |ms| && r == Read(v, c, ms[i]) && s == Read(v, c, ms[j]) && r != Words("") && s != Words("")
    ensures Shows(Translate(v, c, ms), p, r) && Shows(Translate(v, c, ms), q, s) && Precedes(p, r, q)
  {
    var n := |ms| - 1;
    var before, m := ms[..n], ms[n];
    if j == n {
      p, q := SaidLast(v, c, before, m, i, r);
    } else {
      p, q := SaidInOrder(v, c, before, i, j, r, s);
      SaidStays(v, c, Translate(v, c, before), m, p, r);
      SaidStays(v, c, Translate(v, c, before), m, q, s);
    }
  }

  lemma SaidLast(v: View, c: Calls, ms: seq<Message>, m: Message, i: nat, r: Convert.Reading) returns (p: Place, q: Place)
    requires i < |ms| && r == Read(v, c, ms[i]) && r != Words("") && Read(v, c, m) != Words("")
    ensures Shows(Step(v, c, Translate(v, c, ms), m), p, r) && Shows(Step(v, c, Translate(v, c, ms), m), q, Read(v, c, m)) && Precedes(p, r, q)
  {
    p := Said(v, c, ms, i);
    q := SaidNow(v, c, Translate(v, c, ms), m);
    SaidStays(v, c, Translate(v, c, ms), m, p, r);
  }

  // --- Nothing else ---

  /** The readings from the first to the last, pre the words since the last block: words in a row are one
      text, a blank line between two. */
  function Together(pre: string, rs: seq<Convert.Reading>): seq<ChatMessage>
    decreases |rs|
  {
    var said := if pre == "" then [] else [ChatMessage(User, Plain(pre), [], None)];
    if rs == [] then said else
    match rs[0]
    case Words(text) => Together(if text == "" then pre else if pre == "" then text else pre + "\n\n" + text, rs[1..])
    case Block(cm) => said + [cm] + Together("", rs[1..])
  }

  function Readings(v: View, c: Calls, ms: seq<Message>): (rs: seq<Convert.Reading>)
    ensures |rs| == |ms| && forall i :: 0 <= i < |ms| ==> rs[i] == Read(v, c, ms[i])
  {
    seq(|ms|, i requires 0 <= i < |ms| => Read(v, c, ms[i]))
  }

  predicate NoPlainBlocks(rs: seq<Convert.Reading>) { forall i :: 0 <= i < |rs| && rs[i].Block? ==> PlainUserText(rs[i].cm).None? }

  function Then(out: seq<ChatMessage>, r: Convert.Reading): seq<ChatMessage> {
    match r case Words(text) => AppendUserText(out, text) case Block(cm) => out + [cm]
  }

  lemma ThenAfter(first: seq<ChatMessage>, cm: ChatMessage, rest: seq<ChatMessage>, r: Convert.Reading)
    requires PlainUserText(cm).None?
    ensures Then(first + [cm] + rest, r) == first + [cm] + Then(rest, r)
  {
    var all := first + [cm] + rest;
    if rest == [] {
      assert all == first + [cm] && all[|all| - 1] == cm;
    } else {
      assert all[|all| - 1] == rest[|rest| - 1] && all[..|all| - 1] == first + [cm] + rest[..|rest| - 1];
    }
  }

  lemma {:induction false} OneMoreTogether(pre: string, rs: seq<Convert.Reading>, r: Convert.Reading)
    requires NoPlainBlocks(rs)
    ensures Together(pre, rs + [r]) == Then(Together(pre, rs), r)
    decreases |rs|
  {
    if rs == [] {
      LastTogether(pre, r);
    } else {
      assert (rs + [r])[1..] == rs[1..] + [r] && NoPlainBlocks(rs[1..]);
      match rs[0]
      case Words(text) => OneMoreTogether(if text == "" then pre else if pre == "" then text else pre + "\n\n" + text, rs[1..], r);
      case Block(cm) =>
        OneMoreTogether("", rs[1..], r);
        ThenAfter(if pre == "" then [] else [ChatMessage(User, Plain(pre), [], None)], cm, Together("", rs[1..]), r);
    }
  }

  lemma LastTogether(pre: string, r: Convert.Reading)
    ensures Together(pre, [r]) == Then(Together(pre, []), r)
  {
    assert [r][1..] == [];
  }

  /** What the model reads is the messages' readings one after the other, each run of words one user text. */
  lemma {:induction false} NothingElse(v: View, c: Calls, ms: seq<Message>)
    ensures Translate(v, c, ms) == Together("", Readings(v, c, ms))
  {
    if ms != [] {
      NothingElse(v, c, ms[..|ms| - 1]);
      OneMoreReading(v, c, ms[..|ms| - 1], ms[|ms| - 1]);
      assert ms == ms[..|ms| - 1] + [ms[|ms| - 1]];
    }
  }

  lemma OneMoreReading(v: View, c: Calls, ms: seq<Message>, m: Message)
    ensures Together("", Readings(v, c, ms + [m])) == Step(v, c, Together("", Readings(v, c, ms)), m)
  {
    var rs, r := Readings(v, c, ms), Read(v, c, m);
    assert Readings(v, c, ms + [m]) == rs + [r];
    NoneArePlain(v, c, ms);
    OneMoreTogether("", rs, r);
  }

  lemma NoneArePlain(v: View, c: Calls, ms: seq<Message>)
    ensures NoPlainBlocks(Readings(v, c, ms))
  {
  }

  // --- People's words ---

  /** A person's words stand under their name, in full; unsigned, as they are. */
  lemma PeopleAreHeard(v: View, c: Calls, ms: seq<Message>, i: nat, text: string) returns (p: Place)
    requires i < |ms| && ms[i].role == User && ms[i].kind == Ordinary && ms[i].calls == [] && ms[i].result == None
    requires ms[i].content == Plain(text) && text != ""
    ensures Stands(Translate(v, c, ms), p.k, p.at, if ms[i].author == "" then text else "[" + ms[i].author + "] " + text)
  {
    p := Said(v, c, ms, i);
  }

  lemma WordsAreHeard(v: View, c: Calls, ms: seq<Message>, i: nat, text: string) returns (p: Place)
    requires i < |ms| && Read(v, c, ms[i]) == Words(text) && text != ""
    ensures Stands(Translate(v, c, ms), p.k, p.at, text)
  {
    p := Said(v, c, ms, i);
  }

  lemma PlainReads(v: View, c: Calls, m: Message, text: string)
    requires m.role == User && m.kind != TurnEnd && m.kind != TaskResult && m.calls == [] && m.result == None && Framed(m) == Plain(text)
    ensures Read(v, c, m) == Words(text)
  {
  }

  lemma SummaryFramed(c: Content, text: string) returns (frame: string)
    requires c == Plain(text)
    ensures AsForkContext(c) == Plain(frame + text)
  {
    var framed := AsForkContext(c).text;
    frame := framed[..|framed| - |text|];
  }

  lemma ReportFramed(c: Content, m: Message, text: string) returns (frame: string)
    requires c == Plain(text)
    ensures AsForkReport(c, m) == Plain(frame + text)
  {
    var framed := AsForkReport(c, m).text;
    frame := framed[..|framed| - |text|];
  }

  lemma FramedSummary(m: Message)
    requires m.kind == ForkSummary
    ensures Framed(m) == AsForkContext(m.content)
  {
  }

  lemma FramedReport(m: Message)
    requires m.kind == ForkReport
    ensures Framed(m) == AsForkReport(m.content, m)
  {
  }

  lemma TailStands(out: seq<ChatMessage>, p: Place, frame: string, text: string) returns (q: Place)
    requires Stands(out, p.k, p.at, frame + text)
    ensures Stands(out, q.k, q.at, text)
  {
    EndOf(frame, text);
    StandsWithin(out, p.k, p.at, frame + text, |frame|, text);
    q := Place(p.k, p.at + |frame|);
  }

  lemma FramedIsHeard(v: View, c: Calls, ms: seq<Message>, i: nat, text: string) returns (p: Place)
    requires i < |ms| && ms[i].role == User && ms[i].kind != TurnEnd && ms[i].kind != TaskResult && ms[i].calls == [] && ms[i].result == None
    requires Framed(ms[i]) == Plain(text) && text != ""
    ensures Stands(Translate(v, c, ms), p.k, p.at, text)
  {
    PlainReads(v, c, ms[i], text);
    p := WordsAreHeard(v, c, ms, i, text);
  }

  /** A fork's summary stands in full, after its frame. */
  lemma SummariesAreHeard(v: View, c: Calls, ms: seq<Message>, i: nat, text: string) returns (p: Place)
    requires i < |ms| && ms[i].role == User && ms[i].kind == ForkSummary && ms[i].calls == [] && ms[i].result == None
    requires ms[i].content == Plain(text) && text != ""
    ensures Stands(Translate(v, c, ms), p.k, p.at, text)
  {
    FramedSummary(ms[i]);
    var frame := SummaryFramed(ms[i].content, text);
    p := FramedIsHeard(v, c, ms, i, frame + text);
    p := TailStands(Translate(v, c, ms), p, frame, text);
  }

  /** A fork's report stands in full, after its frame. */
  lemma ReportsAreHeard(v: View, c: Calls, ms: seq<Message>, i: nat, text: string) returns (p: Place)
    requires i < |ms| && ms[i].role == User && ms[i].kind == ForkReport && ms[i].calls == [] && ms[i].result == None
    requires ms[i].content == Plain(text) && text != ""
    ensures Stands(Translate(v, c, ms), p.k, p.at, text)
  {
    FramedReport(ms[i]);
    var frame := ReportFramed(ms[i].content, ms[i], text);
    p := FramedIsHeard(v, c, ms, i, frame + text);
    p := TailStands(Translate(v, c, ms), p, frame, text);
  }

  /** A summary's frame. */
  lemma ContextSays()
    ensures ContextText("") == "[Context carried over from an " + "earlier conversation this one "
      + "was forked from. A summary, " + "not a message from the user.]\n\n"
  {
  }

  /** A report's frame: the fork's title, and who posted it. */
  lemma ReportSays(m: Message)
    ensures ReportText(m, "") == "[Report from fork \U{AB} " + (if m.forkTitle != "" then m.forkTitle else "untitled")
      + " \U{BB} by " + (if m.author != "" then m.author else "a member") + ". A summary of the work done "
      + "in that forked conversation, " + "posted here for the record; " + "not a request to you.]\n\n"
  {
  }

  /** A person's message with no words adds nothing; nor does a turn's end, which no model reads. */
  lemma SilentAddsNothing(v: View, c: Calls, ms: seq<Message>, m: Message)
    requires m.kind == TurnEnd ||
      (m.role == User && m.kind == Ordinary && m.calls == [] && m.result == None && (m.content == Null || m.content == Plain("")))
    ensures Translate(v, c, ms + [m]) == Translate(v, c, ms)
  {
    assert (ms + [m])[..|ms|] == ms;
  }

  // --- Another agent's turn ---

  /** How the reader names the agent of m: as the catalog does, else as it signed. */
  ghost predicate IsCalled(v: View, m: Message, who: string) {
    if m.agentId in v.agents then
      var a := v.agents[m.agentId];
      who == if a.mention == "" then "agent " + a.name else "agent " + a.name + " (@" + a.mention + ")"
    else who == "agent " + if m.author == "" then m.agentId else m.author
  }

  /** t is s when it fits in n bytes; else all of its beginning that does, marked as cut. */
  ghost predicate ClippedTo(s: string, n: nat, t: string) {
    if Bytes(s) <= n then t == s
    else exists k :: 0 <= k < |s| && Bytes(s[..k]) <= n < Bytes(s[..k + 1]) && t == s[..k] + "\U{2026}"
  }

  lemma ClipMeans(s: string, n: nat)
    ensures ClippedTo(s, n, Clip(s, n))
  {
    if Bytes(s) > n {
      assert s[..|s|] == s;
      assert Fit(s, n) < |s|;
    }
  }

  /** A character's bytes in UTF-8: they never fall as characters rise, and each number of them starts where it does. */
  lemma WidthMeans(c: char, d: char)
    ensures c <= d ==> Width(c) <= Width(d)
    ensures Width('\U{7F}') == 1 && Width('\U{80}') == Width('\U{7FF}') == 2 && Width('\U{800}') == Width('\U{FFFF}') == 3
    ensures Width('\U{10000}') == Width('\U{10FFFF}') == 4
  {
  }

  /** The bytes of s are those of its characters in UTF-8. */
  lemma {:induction false} BytesMean(s: string)
    ensures |s| <= Bytes(s) <= 4 * |s| && ((forall k :: 0 <= k < |s| ==> s[k] < '\U{80}') <==> Bytes(s) == |s|)
  {
    if s != [] {
      BytesMean(s[..|s| - 1]);
      assert forall k :: 0 <= k < |s| - 1 ==> s[..|s| - 1][k] == s[k];
    }
  }

  /** Of some lines joined, the i-th stands at its place. */
  lemma {:induction false} LineStands(lines: seq<string>, i: nat) returns (at: nat)
    requires i < |lines|
    ensures at + |lines[i]| <= |Join(lines)| && Join(lines)[at..at + |lines[i]|] == lines[i]
    decreases |lines|
  {
    if |lines| == 1 {
      at := 0;
      assert lines[0][0..|lines[0]|] == lines[0];
    } else if i == 0 {
      at := 0;
      assert Join(lines) == lines[0] + ("\n" + Join(lines[1..]));
      PartOf(lines[0], "\n" + Join(lines[1..]), 0, |lines[0]|);
    } else {
      var from := LineStands(lines[1..], i - 1);
      at := |lines[0]| + 1 + from;
      Inside(lines[0] + "\n", Join(lines[1..]), from, lines[i]);
    }
  }

  /** And two of them in their order. */
  lemma {:induction false} LinesInOrder(lines: seq<string>, i: nat, j: nat) returns (at: nat, from: nat)
    requires i < j < |lines|
    ensures at + |lines[i]| < from && from + |lines[j]| <= |Join(lines)|
    ensures Join(lines)[at..at + |lines[i]|] == lines[i] && Join(lines)[from..from + |lines[j]|] == lines[j]
    decreases |lines|
  {
    if i == 0 {
      at := 0;
      PartOf(lines[0], "\n" + Join(lines[1..]), 0, |lines[0]|);
      assert Join(lines) == lines[0] + ("\n" + Join(lines[1..]));
      var k := LineStands(lines[1..], j - 1);
      from := |lines[0]| + 1 + k;
      Inside(lines[0] + "\n", Join(lines[1..]), k, lines[j]);
    } else {
      var k, l := LinesInOrder(lines[1..], i - 1, j - 1);
      at, from := |lines[0]| + 1 + k, |lines[0]| + 1 + l;
      Inside(lines[0] + "\n", Join(lines[1..]), k, lines[i]);
      Inside(lines[0] + "\n", Join(lines[1..]), l, lines[j]);
    }
  }

  lemma Inside(before: string, text: string, from: nat, part: string)
    requires from + |part| <= |text| && text[from..from + |part|] == part
    ensures (before + text)[|before| + from..|before| + from + |part|] == part
  {
    assert (before + text)[|before|..] == text;
    assert (before + text)[|before|..][from..from + |part|] == (before + text)[|before| + from..|before| + from + |part|];
  }

  /** What stands in a text that stands there stands there. */
  lemma StandsWithin(out: seq<ChatMessage>, k: nat, at: nat, text: string, from: nat, part: string)
    requires Stands(out, k, at, text) && from + |part| <= |text| && text[from..from + |part|] == part
    ensures Stands(out, k, at + from, part)
  {
    var all := out[k].content.text;
    assert all[at..at + |text|][from..from + |part|] == all[at + from..at + from + |part|];
  }

  lemma LabelMeans(v: View, m: Message)
    ensures IsCalled(v, m, LabelOf(v, m))
  {
  }

  /** What comes before the lines of its calls: its answer, when it has one. */
  function AnswerLine(m: Message, who: string): seq<string> {
    if MessageText(m.content) != "" then ["[" + who + "] " + MessageText(m.content)] else []
  }

  /** The lines another agent's turn is read as: its answer, then its calls. */
  function Lines(v: View, m: Message, who: string): seq<string> {
    AnswerLine(m, who) + CallLines(v, who, m.calls)
  }

  lemma OtherReads(v: View, c: Calls, m: Message)
    requires m.role == Assistant && m.agentId != "" && m.agentId != v.self && m.kind == Ordinary
    ensures Read(v, c, m) == Words(Join(Lines(v, m, LabelOf(v, m))))
  {
  }

  lemma LineIsHeard(out: seq<ChatMessage>, p: Place, lines: seq<string>, j: nat) returns (q: Place)
    requires Stands(out, p.k, p.at, Join(lines)) && j < |lines|
    ensures Stands(out, q.k, q.at, lines[j])
  {
    var from := LineStands(lines, j);
    StandsWithin(out, p.k, p.at, Join(lines), from, lines[j]);
    q := Place(p.k, p.at + from);
  }

  lemma LineFills(lines: seq<string>, j: nat)
    requires j < |lines| && lines[j] != ""
    ensures Join(lines) != ""
  {
    var from := LineStands(lines, j);
  }

  /** What another agent's turn is read as stands, each line of it. */
  lemma TurnIsHeard(v: View, c: Calls, ms: seq<Message>, i: nat, lines: seq<string>, j: nat) returns (p: Place)
    requires i < |ms| && Read(v, c, ms[i]) == Words(Join(lines)) && j < |lines| && lines[j] != ""
    ensures Stands(Translate(v, c, ms), p.k, p.at, lines[j])
  {
    LineFills(lines, j);
    p := WordsAreHeard(v, c, ms, i, Join(lines));
    p := LineIsHeard(Translate(v, c, ms), p, lines, j);
  }

  lemma FirstLine(v: View, m: Message, who: string, text: string)
    requires m.content == Plain(text) && text != ""
    ensures |Lines(v, m, who)| > 0 && Lines(v, m, who)[0] == "[" + who + "] " + text
  {
  }

  /** Another agent's answer stands under its name, in full. */
  lemma OthersAreHeard(v: View, c: Calls, ms: seq<Message>, i: nat, text: string) returns (p: Place, who: string)
    requires i < |ms| && ms[i].role == Assistant && ms[i].agentId != "" && ms[i].agentId != v.self && ms[i].kind == Ordinary
    requires ms[i].content == Plain(text) && text != ""
    ensures IsCalled(v, ms[i], who) && Stands(Translate(v, c, ms), p.k, p.at, "[" + who + "] " + text)
  {
    who := LabelOf(v, ms[i]);
    LabelMeans(v, ms[i]);
    FirstLine(v, ms[i], who, text);
    OtherReads(v, c, ms[i]);
    p := TurnIsHeard(v, c, ms, i, Lines(v, ms[i], who), 0);
  }

  /** The input a call shows, before it is cut: hidden when its tool is private. */
  function ShownInput(v: View, tc: ToolCall): string {
    if tc.name in v.private then "{\"content\":\"(private)\"}" else if tc.input == "" then "{}" else tc.input
  }

  function CallText(v: View, who: string, tc: ToolCall): string {
    "[" + who + " called " + tc.name + " " + Clip(ShownInput(v, tc), 500) + "]"
  }

  lemma LastLine(v: View, who: string, calls: seq<ToolCall>)
    requires calls != []
    ensures CallLines(v, who, calls) == CallLines(v, who, calls[..|calls| - 1]) + [CallText(v, who, calls[|calls| - 1])]
  {
  }

  lemma {:induction false} OneLineEach(v: View, who: string, calls: seq<ToolCall>)
    ensures |CallLines(v, who, calls)| == |calls|
  {
    if calls != [] {
      OneLineEach(v, who, calls[..|calls| - 1]);
      LastLine(v, who, calls);
    }
  }

  lemma {:induction false} CallLine(v: View, who: string, calls: seq<ToolCall>, j: nat, text: string)
    requires j < |calls| && text == CallText(v, who, calls[j])
    ensures |CallLines(v, who, calls)| == |calls| && CallLines(v, who, calls)[j] == text
  {
    OneLineEach(v, who, calls);
    LastLine(v, who, calls);
    if j < |calls| - 1 { CallLine(v, who, calls[..|calls| - 1], j, text); }
  }

  lemma LineOfCall(head: seq<string>, v: View, who: string, calls: seq<ToolCall>, j: nat, text: string)
    requires j < |calls| && text == CallText(v, who, calls[j])
    ensures var lines := head + CallLines(v, who, calls); |head| + j < |lines| && lines[|head| + j] == text
  {
    CallLine(v, who, calls, j, text);
  }

  /** Each of its calls stands under its name: the tool, and its input, cut to 500 bytes, or hidden. */
  lemma OthersCallsAreHeard(v: View, c: Calls, ms: seq<Message>, i: nat, j: nat) returns (p: Place, who: string, shown: string)
    requires i < |ms| && ms[i].role == Assistant && ms[i].agentId != "" && ms[i].agentId != v.self && ms[i].kind == Ordinary
    requires j < |ms[i].calls|
    ensures IsCalled(v, ms[i], who) && ClippedTo(ShownInput(v, ms[i].calls[j]), 500, shown)
    ensures Stands(Translate(v, c, ms), p.k, p.at, "[" + who + " called " + ms[i].calls[j].name + " " + shown + "]")
  {
    who, shown := LabelOf(v, ms[i]), Clip(ShownInput(v, ms[i].calls[j]), 500);
    LabelMeans(v, ms[i]);
    ClipMeans(ShownInput(v, ms[i].calls[j]), 500);
    var head := AnswerLine(ms[i], who);
    LineOfCall(head, v, who, ms[i].calls, j, CallText(v, who, ms[i].calls[j]));
    OtherReads(v, c, ms[i]);
    p := TurnIsHeard(v, c, ms, i, head + CallLines(v, who, ms[i].calls), |head| + j);
  }

  lemma TwoLinesStand(out: seq<ChatMessage>, p: Place, lines: seq<string>, i: nat, j: nat) returns (q: Place, r: Place)
    requires Stands(out, p.k, p.at, Join(lines)) && i < j < |lines|
    ensures Stands(out, q.k, q.at, lines[i]) && Stands(out, r.k, r.at, lines[j]) && Precedes(q, Words(lines[i]), r)
  {
    var at, from := LinesInOrder(lines, i, j);
    StandsWithin(out, p.k, p.at, Join(lines), at, lines[i]);
    StandsWithin(out, p.k, p.at, Join(lines), from, lines[j]);
    q, r := Place(p.k, p.at + at), Place(p.k, p.at + from);
  }

  lemma TwoCallsStand(out: seq<ChatMessage>, p: Place, head: seq<string>, lines: seq<string>, j: nat, l: nat, a: string, b: string) returns (q: Place, r: Place)
    requires Stands(out, p.k, p.at, Join(head + lines)) && j < l < |lines| && a == lines[j] && b == lines[l]
    ensures Stands(out, q.k, q.at, a) && Stands(out, r.k, r.at, b) && Precedes(q, Words(a), r)
  {
    q, r := TwoLinesStand(out, p, head + lines, |head| + j, |head| + l);
  }

  lemma CallsFill(head: seq<string>, v: View, who: string, calls: seq<ToolCall>)
    requires calls != []
    ensures Join(head + CallLines(v, who, calls)) != ""
  {
    var text := CallText(v, who, calls[0]);
    LineOfCall(head, v, who, calls, 0, text);
    LineFills(head + CallLines(v, who, calls), |head|);
  }

  /** Its calls stand in the order it made them. */
  lemma OthersCallsInOrder(v: View, c: Calls, ms: seq<Message>, i: nat, j: nat, l: nat, a: string, b: string) returns (p: Place, q: Place)
    requires i < |ms| && ms[i].role == Assistant && ms[i].agentId != "" && ms[i].agentId != v.self && ms[i].kind == Ordinary
    requires j < l < |ms[i].calls| && a == CallText(v, LabelOf(v, ms[i]), ms[i].calls[j]) && b == CallText(v, LabelOf(v, ms[i]), ms[i].calls[l])
    ensures Stands(Translate(v, c, ms), p.k, p.at, a) && Stands(Translate(v, c, ms), q.k, q.at, b) && Precedes(p, Words(a), q)
  {
    var who := LabelOf(v, ms[i]);
    var head := AnswerLine(ms[i], who);
    OtherReads(v, c, ms[i]);
    CallsFill(head, v, who, ms[i].calls);
    var at := WordsAreHeard(v, c, ms, i, Join(head + CallLines(v, who, ms[i].calls)));
    CallLine(v, who, ms[i].calls, j, a);
    CallLine(v, who, ms[i].calls, l, b);
    p, q := TwoCallsStand(Translate(v, c, ms), at, head, CallLines(v, who, ms[i].calls), j, l, a, b);
  }

  lemma CallRecorded(v: View, ms: seq<Message>, a: nat, j: nat)
    requires UniqueCalls(ms) && a < |ms| && j < |ms[a].calls| && Other(v, ms[a])
    ensures var id := ms[a].calls[j].id; id in CallsOf(v, ms).others && CallsOf(v, ms).others[id] == OtherCall(ms[a].calls[j].name, LabelOf(v, ms[a]))
  {
    var id, c := ms[a].calls[j].id, CallsOf(v, ms);
    CallsOfMeans(v, ms, id);
    assert Makes(ms[a].calls, id);
    var b :| 0 <= b < |ms| && Other(v, ms[b]) && Recorded(v, ms[b], ms[b].calls, id, c);
    var l :| 0 <= l < |ms[b].calls| && ms[b].calls[l].id == id && c.others[id] == OtherCall(ms[b].calls[l].name, LabelOf(v, ms[b]));
    assert a == b && j == l;
  }

  /** The result of a call another agent made stands under the tool's name and its: cut to 1500 bytes, or hidden. */
  lemma OthersResultsAreHeard(v: View, ms: seq<Message>, i: nat, a: nat, j: nat) returns (p: Place, who: string, shown: string)
    requires UniqueCalls(ms) && i < |ms| && a < |ms| && j < |ms[a].calls|
    requires ms[a].role == Assistant && ms[a].agentId != "" && ms[a].agentId != v.self
    requires ms[i].role == Tool && ms[i].kind == Ordinary && ms[i].result.Some? && ms[i].result.value.callId == ms[a].calls[j].id
    ensures IsCalled(v, ms[a], who)
    ensures ClippedTo(if ms[a].calls[j].name in v.private then "(private)" else ms[i].result.value.content, 1500, shown)
    ensures Stands(Converted(v, ms), p.k, p.at,
      "[" + (if ms[i].result.value.isError then "error from" else "result of") + " " + ms[a].calls[j].name + ", called by " + who + "] " + shown)
  {
    var c, r, tc := CallsOf(v, ms), ms[i].result.value, ms[a].calls[j];
    CallRecorded(v, ms, a, j);
    who, shown := LabelOf(v, ms[a]), Clip(if tc.name in v.private then "(private)" else r.content, 1500);
    LabelMeans(v, ms[a]);
    ClipMeans(if tc.name in v.private then "(private)" else r.content, 1500);
    p := Said(v, c, ms, i);
  }

  // --- The reader's own turns ---

  /** Of the reader's own, or nobody's: a turn for another user than the one it answers now. */
  predicate ForOther(v: View, m: Message) {
    m.role == Assistant && (m.agentId == "" || m.agentId == v.self) && m.userId != "" && m.userId != v.user
  }

  /** A result the reader must not see: of a private call of its own turn for another user, or of no call. */
  ghost predicate HiddenResult(v: View, ms: seq<Message>, id: string) {
    (exists a :: 0 <= a < |ms| && ForOther(v, ms[a]) && MakesPrivate(v, ms[a].calls, id)) || !exists a :: 0 <= a < |ms| && Makes(ms[a].calls, id)
  }

  /** The message as it was stored, but for the inputs and the results that are hidden. */
  ghost predicate AsItWas(v: View, ms: seq<Message>, m: Message, cm: ChatMessage) {
    && cm.role == m.role && cm.content == m.content && |cm.calls| == |m.calls|
    && (forall j :: 0 <= j < |m.calls| ==>
          cm.calls[j] == (if ForOther(v, m) && m.calls[j].name in v.private then m.calls[j].(input := "{\"content\":\"(private)\"}") else m.calls[j]))
    && (match m.result
        case None => cm.result == None
        case Some(r) => cm.result == Some(if HiddenResult(v, ms, r.callId) then r.(content := "(private)") else r))
  }

  lemma OwnCallHidden(v: View, ms: seq<Message>, i: nat, j: nat)
    requires UniqueCalls(ms) && i < |ms| && j < |ms[i].calls|
    ensures ms[i].calls[j].id in CallsOf(v, ms).hidden <==> ForOther(v, ms[i]) && ms[i].calls[j].name in v.private
  {
    var id := ms[i].calls[j].id;
    CallsOfMeans(v, ms, id);
    if id in CallsOf(v, ms).hidden {
      var a :| 0 <= a < |ms| && ForAnotherUser(v, ms[a]) && MakesPrivate(v, ms[a].calls, id);
      var l :| 0 <= l < |ms[a].calls| && ms[a].calls[l].id == id && ms[a].calls[l].name in v.private;
      assert a == i && l == j;
    }
    if ForOther(v, ms[i]) && ms[i].calls[j].name in v.private {
      assert ForAnotherUser(v, ms[i]) && MakesPrivate(v, ms[i].calls, id);
    }
  }

  lemma ResultHidden(v: View, ms: seq<Message>, id: string)
    ensures id in CallsOf(v, ms).hidden || id !in CallsOf(v, ms).called <==> HiddenResult(v, ms, id)
  {
    CallsOfMeans(v, ms, id);
    forall a | 0 <= a < |ms| ensures ForAnotherUser(v, ms[a]) <==> ForOther(v, ms[a]) {}
  }

  /** An own answer, call or result, or a person's images: a block for the model, as it was stored but for what is hidden. */
  lemma OwnTurnsAreKept(v: View, ms: seq<Message>, i: nat) returns (k: nat)
    requires UniqueCalls(ms) && i < |ms| && ms[i].kind == Ordinary
    requires match ms[i].role
      case Tool => true
      case Assistant => ms[i].agentId == "" || ms[i].agentId == v.self
      case User => ms[i].content.Structured? || ms[i].content.Absent?
    requires ms[i].result.Some? ==> forall a :: 0 <= a < |ms| && ms[a].role == Assistant && ms[a].agentId != "" && ms[a].agentId != v.self ==> !Makes(ms[a].calls, ms[i].result.value.callId)
    ensures k < |Converted(v, ms)| && AsItWas(v, ms, ms[i], Converted(v, ms)[k])
  {
    var c, m := CallsOf(v, ms), ms[i];
    if m.result.Some? {
      CallsOfMeans(v, ms, m.result.value.callId);
      ResultHidden(v, ms, m.result.value.callId);
    }
    forall j | 0 <= j < |m.calls| ensures m.calls[j].id in c.hidden <==> ForOther(v, m) && m.calls[j].name in v.private { OwnCallHidden(v, ms, i, j); }
    assert Read(v, c, m) == Block(OwnMessage(c, m));
    var p := Said(v, c, ms, i);
    k := p.k;
  }

  // --- What is nobody's words ---

  /** The reader started the task, or nobody did. */
  predicate Own(v: View, m: Message) { m.agentId == "" || m.agentId == v.self }

  lemma Between(before: string, part: string, after: string)
    ensures (before + part + after)[|before|..|before| + |part|] == part
  {
  }

  lemma TaskReads(v: View, c: Calls, m: Message)
    requires m.kind == TaskResult
    ensures Read(v, c, m) == Words(TaskText(v, m))
  {
  }

  lemma TaskStands(v: View, c: Calls, ms: seq<Message>, i: nat, text: string) returns (p: Place)
    requires i < |ms| && ms[i].kind == TaskResult && TaskText(v, ms[i]) == text && text != ""
    ensures Stands(Translate(v, c, ms), p.k, p.at, text)
  {
    TaskReads(v, c, ms[i]);
    p := WordsAreHeard(v, c, ms, i, text);
  }

  lemma PartStands(out: seq<ChatMessage>, p: Place, before: string, part: string, after: string) returns (q: Place)
    requires Stands(out, p.k, p.at, before + part + after)
    ensures Stands(out, q.k, q.at, part)
  {
    Between(before, part, after);
    StandsWithin(out, p.k, p.at, before + part + after, |before|, part);
    q := Place(p.k, p.at + |before|);
  }

  lemma TaskPart(v: View, c: Calls, ms: seq<Message>, i: nat, before: string, part: string, after: string) returns (p: Place)
    requires i < |ms| && ms[i].kind == TaskResult && TaskText(v, ms[i]) == before + part + after && part != ""
    ensures Stands(Translate(v, c, ms), p.k, p.at, part)
  {
    p := TaskStands(v, c, ms, i, before + part + after);
    p := PartStands(Translate(v, c, ms), p, before, part, after);
  }

  function TaskOf(m: Message): TaskRef { match m.task case Some(t) => t case None => NO_TASK }

  lemma TaskParts(v: View, m: Message) returns (head: string, list: string, body: string, file: string)
    ensures TaskText(v, m) == head + list + body + file
    ensures head == TaskHead(v, m, TaskOf(m), Own(v, m)) && (Own(v, m) ==> list == Instructions(TaskOf(m)))
    ensures var text := if Own(v, m) then MessageText(m.content) else Clip(MessageText(m.content), 1500);
      body == if text == "" then "" else "\n" + text
  {
    var t, text := TaskOf(m), if Own(v, m) then MessageText(m.content) else Clip(MessageText(m.content), 1500);
    head, list := TaskHead(v, m, t, Own(v, m)), if Own(v, m) then Instructions(t) else "";
    body, file := if text != "" then "\n" + text else "", if Own(v, m) then FileLine(t.file) else "";
  }

  lemma Wider(out: string, head: string, list: string, body: string, file: string)
    requires out == head + list + body + file
    ensures out == head + list + (body + file) && out == head + (list + body + file)
  {
  }

  lemma InBody(head: string, text: string, file: string)
    ensures head + ("\n" + text) + file == (head + "\n") + text + file
  {
  }

  lemma ReportInTask(v: View, m: Message, text: string) returns (before: string, shown: string, after: string)
    requires m.content == Plain(text) && text != ""
    ensures TaskText(v, m) == before + shown + after && shown != ""
    ensures if Own(v, m) then shown == text else ClippedTo(text, 1500, shown)
  {
    var head, list, body, file := TaskParts(v, m);
    shown := if Own(v, m) then text else Clip(text, 1500);
    ClipMeans(text, 1500);
    InBody(head + list, shown, file);
    before, after := head + list + "\n", file;
  }

  /** A task's report stands: whole for the agent that started it, cut to 1500 bytes for another. */
  lemma TasksAreHeard(v: View, c: Calls, ms: seq<Message>, i: nat, text: string) returns (p: Place, shown: string)
    requires i < |ms| && ms[i].kind == TaskResult && ms[i].content == Plain(text) && text != ""
    ensures if Own(v, ms[i]) then shown == text else ClippedTo(text, 1500, shown)
    ensures Stands(Translate(v, c, ms), p.k, p.at, shown)
  {
    var before, part, after := ReportInTask(v, ms[i], text);
    shown := part;
    p := TaskPart(v, c, ms, i, before, part, after);
  }

  /** An instruction as it is listed, under the name of who attached it. */
  function Listed(f: FollowUp): string { "\n- " + (if f.userName == "" then "" else "(" + f.userName + ") ") + f.text }

  lemma {:induction false} OneIsListed(fs: seq<FollowUp>, j: nat) returns (before: string, after: string)
    requires j < |fs|
    ensures FollowUpLines(fs) == before + Listed(fs[j]) + after && before == FollowUpLines(fs[..j])
  {
    var n := |fs| - 1;
    var rest, last := FollowUpLines(fs[..n]), Listed(fs[n]);
    assert FollowUpLines(fs) == rest + last by {
      assert rest + "\n- " + (if fs[n].userName != "" then "(" + fs[n].userName + ") " else "") + fs[n].text == rest + last;
    }
    if j == n {
      before, after := rest, "";
      assert rest + last + "" == rest + last;
    } else {
      var b, a := OneIsListed(fs[..n], j);
      before, after := b, a + last;
      assert fs[..n][..j] == fs[..j];
      assert b + Listed(fs[j]) + a + last == b + Listed(fs[j]) + (a + last);
    }
  }

  lemma InInstructions(t: TaskRef, j: nat) returns (before: string, after: string)
    requires j < |t.followUps|
    ensures Instructions(t) == before + Listed(t.followUps[j]) + after
  {
    var b, a := OneIsListed(t.followUps, j);
    var first := "\nInstructions to apply now, " + "attached while it ran:";
    before, after := first + b, a;
    assert first + (b + Listed(t.followUps[j]) + a) == before + Listed(t.followUps[j]) + after;
  }

  lemma Deeper(head: string, before: string, part: string, after: string, rest: string)
    ensures head + (before + part + after) + rest == (head + before) + part + (after + rest)
  {
  }

  lemma InstructionInTask(v: View, m: Message, j: nat, part: string) returns (before: string, after: string)
    requires Own(v, m) && j < |TaskOf(m).followUps| && part == Listed(TaskOf(m).followUps[j])
    ensures TaskText(v, m) == before + part + after
  {
    var head, list, body, file := TaskParts(v, m);
    var b, a := InInstructions(TaskOf(m), j);
    Wider(TaskText(v, m), head, list, body, file);
    Deeper(head, b, part, a, body + file);
    before, after := head + b, a + (body + file);
  }

  /** Every instruction attached to a task while it ran stands in what the agent that started it reads. */
  lemma InstructionsAreHeard(v: View, c: Calls, ms: seq<Message>, i: nat, t: TaskRef, j: nat) returns (p: Place)
    requires i < |ms| && ms[i].kind == TaskResult && Own(v, ms[i]) && ms[i].task == Some(t) && j < |t.followUps|
    ensures Stands(Translate(v, c, ms), p.k, p.at, "\n- " + (if t.followUps[j].userName == "" then "" else "(" + t.followUps[j].userName + ") ") + t.followUps[j].text)
  {
    var before, after := InstructionInTask(v, ms[i], j, Listed(t.followUps[j]));
    p := TaskPart(v, c, ms, i, before, Listed(t.followUps[j]), after);
  }

  lemma TwoAreListed(fs: seq<FollowUp>, i: nat, j: nat) returns (before: string, between: string, after: string)
    requires i < j < |fs|
    ensures FollowUpLines(fs) == before + (Listed(fs[i]) + between + Listed(fs[j])) + after
  {
    var b, a := OneIsListed(fs, j);
    before, between := OneIsListed(fs[..j], i);
    after := a;
    Middle(before, Listed(fs[i]), between, Listed(fs[j]), after);
  }

  lemma Middle(a: string, b: string, c: string, d: string, e: string)
    ensures (a + b + c) + d + e == a + (b + c + d) + e
  {
  }

  lemma TwoInTask(v: View, m: Message, i: nat, j: nat) returns (before: string, between: string, after: string)
    requires Own(v, m) && i < j < |TaskOf(m).followUps|
    ensures TaskText(v, m) == before + (Listed(TaskOf(m).followUps[i]) + between + Listed(TaskOf(m).followUps[j])) + after
  {
    var head, list, body, file := TaskParts(v, m);
    var b, n, a := TwoInInstructions(TaskOf(m), i, j);
    between := n;
    var part := Listed(TaskOf(m).followUps[i]) + n + Listed(TaskOf(m).followUps[j]);
    Wider(TaskText(v, m), head, list, body, file);
    Deeper(head, b, part, a, body + file);
    before, after := head + b, a + (body + file);
  }

  lemma TwoInInstructions(t: TaskRef, i: nat, j: nat) returns (before: string, between: string, after: string)
    requires i < j < |t.followUps|
    ensures Instructions(t) == before + (Listed(t.followUps[i]) + between + Listed(t.followUps[j])) + after
  {
    var b, n, a := TwoAreListed(t.followUps, i, j);
    var first := "\nInstructions to apply now, " + "attached while it ran:";
    before, between, after := first + b, n, a;
    Shifted(first, b, Listed(t.followUps[i]) + n + Listed(t.followUps[j]), a);
  }

  lemma Shifted(first: string, b: string, part: string, a: string)
    ensures first + (b + part + a) == (first + b) + part + a
  {
  }

  /** And in the order they were attached. */
  lemma InstructionsInOrder(v: View, c: Calls, ms: seq<Message>, k: nat, i: nat, j: nat) returns (p: Place, between: string)
    requires k < |ms| && ms[k].kind == TaskResult && Own(v, ms[k]) && i < j < |TaskOf(ms[k]).followUps|
    ensures Stands(Translate(v, c, ms), p.k, p.at, Listed(TaskOf(ms[k]).followUps[i]) + between + Listed(TaskOf(ms[k]).followUps[j]))
  {
    var before, n, after := TwoInTask(v, ms[k], i, j);
    between := n;
    p := TaskPart(v, c, ms, k, before, Listed(TaskOf(ms[k]).followUps[i]) + n + Listed(TaskOf(ms[k]).followUps[j]), after);
  }

  /** How long a task ran: in whole seconds under a minute, else in minutes, to the nearest; nothing when unknown. */
  ghost predicate Lasted(t: TaskRef, words: string) {
    if t.started == "" || t.lasted <= 0 then words == ""
    else if t.lasted < 60_000_000_000 then exists n :: n * 1_000_000_000 <= t.lasted < (n + 1) * 1_000_000_000 && words == " after " + Itoa(n) + " s"
    else exists n :: -30_000_000_000 < n * 60_000_000_000 - t.lasted <= 30_000_000_000 && words == " after " + Itoa(n) + " min"
  }

  /** How a task ended, and after how long. */
  ghost predicate Outcome(t: TaskRef, after: string, words: string) {
    Lasted(t, after) && words ==
      if t.state == "failed" then "failed" + after
      else if t.state == "cancelled" then "cancelled by " + (if t.cancelledBy != "" then t.cancelledBy else "a member") + after + ": it was not finished"
      else "done" + after
  }

  lemma OutcomeMeans(t: TaskRef) returns (after: string)
    ensures Outcome(t, after, TaskOutcome(t))
  {
    after :=
      if t.started == "" || t.lasted <= 0 then ""
      else if t.lasted < MINUTE then " after " + Itoa(t.lasted / SECOND) + " s"
      else " after " + Itoa((t.lasted + MINUTE / 2) / MINUTE) + " min";
  }

  /** A task's end says how it ended, and that it is nobody's message. */
  lemma OutcomesAreHeard(v: View, c: Calls, ms: seq<Message>, i: nat, t: TaskRef) returns (p: Place, after: string, words: string)
    requires i < |ms| && ms[i].kind == TaskResult && ms[i].task == Some(t)
    ensures Outcome(t, after, words) && Stands(Translate(v, c, ms), p.k, p.at, ", " + words + ". Not a message from a person.]")
  {
    words := TaskOutcome(t);
    after := OutcomeMeans(t);
    var before, rest := OutcomeInTask(v, ms[i], ", " + words + ". Not a message from a person.]");
    p := TaskPart(v, c, ms, i, before, ", " + words + ". Not a message from a person.]", rest);
  }

  lemma Grouped(a: string, b: string, c: string, d: string)
    ensures a + b + c + d == a + (b + c + d)
  {
  }

  lemma OutcomeInHead(v: View, m: Message, t: TaskRef, mine: bool, part: string) returns (before: string)
    requires part == ", " + TaskOutcome(t) + ". Not a message from a person.]"
    ensures TaskHead(v, m, t, mine) == before + part
  {
    before := TaskStart(v, m, t, mine);
    Grouped(before, ", ", TaskOutcome(t), ". Not a message from a person.]");
  }

  lemma OutcomeInTask(v: View, m: Message, part: string) returns (before: string, after: string)
    requires part == ", " + TaskOutcome(TaskOf(m)) + ". Not a message from a person.]"
    ensures TaskText(v, m) == before + part + after
  {
    var head, list, body, file := TaskParts(v, m);
    Wider(TaskText(v, m), head, list, body, file);
    before := OutcomeInHead(v, m, TaskOf(m), Own(v, m), part);
    after := list + body + file;
  }

  lemma StartOfHead(v: View, m: Message, t: TaskRef, mine: bool, part: string) returns (rest: string)
    requires part == TaskStart(v, m, t, mine)
    ensures TaskHead(v, m, t, mine) == part + rest
  {
    rest := ", " + TaskOutcome(t) + ". Not a message from a person.]";
    Grouped(part, ", ", TaskOutcome(t), ". Not a message from a person.]");
  }

  lemma AtStart(part: string, rest: string, more: string)
    ensures part + rest + more == "" + part + (rest + more)
  {
  }

  lemma Third(head: string, list: string, body: string, file: string)
    ensures head + list + body + file == head + (list + body + file)
  {
  }

  lemma StartInTask(v: View, m: Message, part: string) returns (rest: string)
    requires part == TaskStart(v, m, TaskOf(m), Own(v, m))
    ensures TaskText(v, m) == "" + part + rest
  {
    var head, list, body, file := TaskParts(v, m);
    Third(head, list, body, file);
    rest := StartOfHead(v, m, TaskOf(m), Own(v, m), part);
    AtStart(part, rest, list + body + file);
    rest := rest + (list + body + file);
  }

  /** A task's end names the tool, what the task was, who started it and for whom. */
  lemma TasksAreNamed(v: View, c: Calls, ms: seq<Message>, i: nat, t: TaskRef) returns (p: Place)
    requires i < |ms| && ms[i].kind == TaskResult && ms[i].task == Some(t)
    ensures Stands(Translate(v, c, ms), p.k, p.at,
      "[Task result: " + (if t.tool != "" then t.tool else "a tool") + (if t.summary != "" then " (" + t.summary + ")" else "")
      + ", a background task " + (if Own(v, ms[i]) then "you" else NameOf(v, ms[i].agentId)) + " started"
      + (if t.requestedBy != "" then " for " + t.requestedBy else "") + (if t.started != "" then " at " + t.started else ""))
  {
    var part := TaskStart(v, ms[i], t, Own(v, ms[i]));
    var rest := StartInTask(v, ms[i], part);
    p := TaskPart(v, c, ms, i, "", part, rest);
  }

}
