/** The tools a call to the model defines (activity/llm.go): those offered, and a stub for every
    other one its conversation calls. */
module Requests {
  import opened Text
  import opened Messages
  import opened Sorting
  import opened Convert
  import opened Reading

  /** A definition of a tool that is called and not offered; the flag chooses between its two wordings. */
  datatype Stub = Stub(name: string, withdrawn: bool)

  ghost predicate Called(chat: seq<ChatMessage>, name: string) {
    exists i, j :: 0 <= i < |chat| && 0 <= j < |chat[i].calls| && chat[i].calls[j].name == name
  }

  lemma StringOrder()
    ensures TotalPreorder(StringLe)
  {
    forall x, y ensures StringLe(x, y) || StringLe(y, x) { StringTotal(x, y); }
    forall x, y, z | StringLe(x, y) && StringLe(y, z) ensures StringLe(x, z) { StringTransitive(x, y, z); }
  }

  /** Each name once, in order. */
  ghost predicate Ascending(names: seq<string>) {
    forall i, j :: 0 <= i < j < |names| ==> names[i] != names[j] && StringLe(names[i], names[j])
  }

  ghost predicate Lists(names: seq<string>, offered: seq<string>, chat: seq<ChatMessage>) {
    forall name :: name in names <==> Called(chat, name) && name !in offered
  }

  /** What the definitions of a call must be: one stub for each tool called and not offered. */
  ghost predicate Defines(stubs: seq<Stub>, offered: seq<string>, missing: seq<string>, known: set<string>, chat: seq<ChatMessage>) {
    var names := seq(|stubs|, i requires 0 <= i < |stubs| => stubs[i].name);
    && Ascending(names) && Lists(names, offered, chat)
    && forall i :: 0 <= i < |stubs| ==> (stubs[i].withdrawn <==> stubs[i].name in missing || stubs[i].name !in known)
  }

  /** A message the model reads as a message: its own, or nobody's, not the members' nor a task's end. */
  predicate Kept(v: View, m: Message) { m.kind != TurnEnd && m.kind != TaskResult && !Other(v, m) }

  ghost predicate CallsTool(m: Message, name: string) { exists j :: 0 <= j < |m.calls| && m.calls[j].name == name }

  lemma CalledKept(v: View, c: Calls, out: seq<ChatMessage>, m: Message, name: string)
    requires WellShaped(m)
    ensures Called(Step(v, c, out, m), name) <==> Called(out, name) || (Kept(v, m) && CallsTool(m, name))
  {
    var next := Step(v, c, out, m);
    match Read(v, c, m)
    case Words(text) => WordsCallNothing(out, text, name);
    case Block(cm) =>
      assert cm.calls == DisplayCalls(c.hidden, m.calls);
      BlockCalls(out, cm, name);
  }

  lemma WordsCallNothing(out: seq<ChatMessage>, text: string, name: string)
    ensures Called(AppendUserText(out, text), name) <==> Called(out, name)
  {
    var next := AppendUserText(out, text);
    if Called(next, name) {
      var i, j :| 0 <= i < |next| && 0 <= j < |next[i].calls| && next[i].calls[j].name == name;
      assert out[i].calls[j].name == name;
    }
    if Called(out, name) {
      var i, j :| 0 <= i < |out| && 0 <= j < |out[i].calls| && out[i].calls[j].name == name;
      assert next[i].calls[j].name == name;
    }
  }

  lemma BlockCalls(out: seq<ChatMessage>, cm: ChatMessage, name: string)
    ensures Called(out + [cm], name) <==> Called(out, name) || exists j :: 0 <= j < |cm.calls| && cm.calls[j].name == name
  {
    var next := out + [cm];
    assert next[|out|] == cm;
    if Called(out, name) {
      var i, j :| 0 <= i < |out| && 0 <= j < |out[i].calls| && out[i].calls[j].name == name;
      assert next[i].calls[j].name == name;
    }
  }

  /** One of the messages the model keeps as messages calls the tool. */
  ghost predicate CalledIn(v: View, ms: seq<Message>, name: string) {
    exists i :: 0 <= i < |ms| && Kept(v, ms[i]) && CallsTool(ms[i], name)
  }

  lemma CalledInMore(v: View, ms: seq<Message>, m: Message, name: string)
    ensures CalledIn(v, ms + [m], name) <==> CalledIn(v, ms, name) || (Kept(v, m) && CallsTool(m, name))
  {
    assert (ms + [m])[|ms|] == m;
    if CalledIn(v, ms, name) {
      var i :| 0 <= i < |ms| && Kept(v, ms[i]) && CallsTool(ms[i], name);
      assert (ms + [m])[i] == ms[i];
    }
  }

  /** The tools a conversation calls, as the model reads it. */
  lemma {:induction false} CalledMeans(v: View, c: Calls, ms: seq<Message>, name: string)
    requires forall i :: 0 <= i < |ms| ==> WellShaped(ms[i])
    ensures Called(Translate(v, c, ms), name) <==> CalledIn(v, ms, name)
  {
    if ms != [] {
      var n := |ms| - 1;
      assert ms == ms[..n] + [ms[n]];
      CalledMeans(v, c, ms[..n], name);
      CalledKept(v, c, Translate(v, c, ms[..n]), ms[n], name);
      CalledInMore(v, ms[..n], ms[n], name);
    }
  }

  lemma StubsAscend(stubs: seq<Stub>, offered: seq<string>, missing: seq<string>, known: set<string>, chat: seq<ChatMessage>)
    requires Defines(stubs, offered, missing, known, chat)
    ensures forall k, l :: 0 <= k < l < |stubs| ==> stubs[k].name != stubs[l].name && StringLe(stubs[k].name, stubs[l].name)
  {
    var names := seq(|stubs|, i requires 0 <= i < |stubs| => stubs[i].name);
    assert forall k :: 0 <= k < |stubs| ==> names[k] == stubs[k].name;
  }

  /** A request whose conversation is read from ms has a stub for exactly the tools not offered that a message
      of the agent's own, or of nobody's, calls: every tool of its blocks is defined, and none another agent
      alone called. Each is there once, by name, said withdrawn when the catalog has it no more. */
  lemma EveryCallIsDefined(v: View, ms: seq<Message>, stubs: seq<Stub>, offered: seq<string>, missing: seq<string>, known: set<string>, name: string)
    requires Defines(stubs, offered, missing, known, Converted(v, ms)) && forall i :: 0 <= i < |ms| ==> WellShaped(ms[i])
    ensures (exists k :: 0 <= k < |stubs| && stubs[k].name == name)
       <==> name !in offered && CalledIn(v, ms, name)
    ensures forall k :: 0 <= k < |stubs| ==> stubs[k].withdrawn == (stubs[k].name in missing || stubs[k].name !in known)
    ensures forall k, l :: 0 <= k < l < |stubs| ==> stubs[k].name != stubs[l].name && StringLe(stubs[k].name, stubs[l].name)
  {
    CalledMeans(v, CallsOf(v, ms), ms, name);
    StubsAscend(stubs, offered, missing, known, Converted(v, ms));
    var names := seq(|stubs|, k requires 0 <= k < |stubs| => stubs[k].name);
    assert name in names <==> Called(Converted(v, ms), name) && name !in offered;
    if name in names {
      var k :| 0 <= k < |names| && names[k] == name;
      assert stubs[k].name == name;
    }
    if exists k :: 0 <= k < |stubs| && stubs[k].name == name {
      var k :| 0 <= k < |stubs| && stubs[k].name == name;
      assert names[k] == name;
    }
  }

  /** A set of names has one ascending list, in whatever order they were found. */
  lemma {:induction false} OneList(a: seq<string>, b: seq<string>)
    requires Ascending(a) && Ascending(b) && forall name :: name in a <==> name in b
    ensures a == b
  {
    assert a != [] ==> a[0] in b;
    assert b != [] ==> b[0] in a;
    if a != [] {
      StringTotal(a[0], b[0]);
      forall name ensures name in a[1..] <==> name in b[1..] {
        assert name in a <==> name == a[0] || name in a[1..];
        assert name in b <==> name == b[0] || name in b[1..];
      }
      OneList(a[1..], b[1..]);
      assert a == [a[0]] + a[1..] && b == [b[0]] + b[1..];
    }
  }

  /** The stubs of a turn's later call are those of its earlier one while it calls offered tools only. */
  lemma StubsStay(before: seq<Stub>, after: seq<Stub>, offered: seq<string>, missing: seq<string>, known: set<string>, chat: seq<ChatMessage>, later: seq<ChatMessage>)
    requires Defines(before, offered, missing, known, chat) && Defines(after, offered, missing, known, later)
    requires chat <= later && forall i, j :: |chat| <= i < |later| && 0 <= j < |later[i].calls| ==> later[i].calls[j].name in offered
    ensures before == after
  {
    var a := seq(|before|, i requires 0 <= i < |before| => before[i].name);
    var b := seq(|after|, i requires 0 <= i < |after| => after[i].name);
    forall name ensures name in a <==> name in b {
      if name !in offered && Called(later, name) {
        var i, j :| 0 <= i < |later| && 0 <= j < |later[i].calls| && later[i].calls[j].name == name;
        assert chat[i] == later[i];
      }
      if Called(chat, name) {
        var i, j :| 0 <= i < |chat| && 0 <= j < |chat[i].calls| && chat[i].calls[j].name == name;
        assert chat[i] == later[i];
      }
    }
    OneList(a, b);
    assert |before| == |a| && |after| == |b|;
    forall i | 0 <= i < |before| ensures before[i] == after[i] { assert a[i] == b[i]; }
  }

  lemma SortedNames(names: seq<string>)
    requires forall i, j :: 0 <= i < j < |names| ==> names[i] != names[j]
    ensures Ascending(Sort(names, StringLe)) && forall name :: name in Sort(names, StringLe) <==> name in names
  {
    StringOrder();
    SortSorted(names, StringLe);
    PermutedPairs(names, Sort(names, StringLe), (x: string, y: string) => x != y);
    forall name ensures name in Sort(names, StringLe) <==> name in names {
      assert name in multiset(Sort(names, StringLe)) <==> name in multiset(names);
    }
  }

  /** The stubs of the tools called and not offered. */
  method WithdrawnTools(offered: seq<string>, missing: seq<string>, known: set<string>, chat: seq<ChatMessage>) returns (stubs: seq<Stub>)
    ensures Defines(stubs, offered, missing, known, chat)
  {
    var notOffered: seq<string> := [];
    var seen: set<string> := {};
    for i := 0 to |chat|
      invariant forall name :: name in seen <==> Called(chat[..i], name)
      invariant forall name :: name in notOffered <==> name in seen && name !in offered
      invariant forall k, l :: 0 <= k < l < |notOffered| ==> notOffered[k] != notOffered[l]
    {
      ghost var before := seen;
      for j := 0 to |chat[i].calls|
        invariant forall name :: name in seen <==> name in before || exists l :: 0 <= l < j && chat[i].calls[l].name == name
        invariant forall name :: name in notOffered <==> name in seen && name !in offered
        invariant forall k, l :: 0 <= k < l < |notOffered| ==> notOffered[k] != notOffered[l]
      {
        var name := chat[i].calls[j].name;
        if name !in seen && name !in offered {
          notOffered := notOffered + [name];
        }
        seen := seen + {name};
      }
      forall name ensures name in seen <==> Called(chat[..i + 1], name) { OneMoreCalled(chat, i, name); }
    }
    assert chat[..|chat|] == chat;
    if notOffered == [] {
      return [];
    }
    SortedNames(notOffered);
    var names := Sort(notOffered, StringLe);
    stubs := [];
    for i := 0 to |names|
      invariant |stubs| == i
      invariant forall k :: 0 <= k < i ==> stubs[k] == Stub(names[k], names[k] in missing || names[k] !in known)
    {
      stubs := stubs + [Stub(names[i], names[i] in missing || names[i] !in known)];
    }
    assert seq(|stubs|, i requires 0 <= i < |stubs| => stubs[i].name) == names;
  }

  lemma OneMoreCalled(chat: seq<ChatMessage>, i: nat, name: string)
    requires i < |chat|
    ensures Called(chat[..i + 1], name) <==> Called(chat[..i], name) || exists l :: 0 <= l < |chat[i].calls| && chat[i].calls[l].name == name
  {
    if Called(chat[..i], name) {
      var k, l :| 0 <= k < i && 0 <= l < |chat[..i][k].calls| && chat[..i][k].calls[l].name == name;
      assert chat[..i + 1][k] == chat[..i][k];
    }
    if Called(chat[..i + 1], name) {
      var k, l :| 0 <= k < i + 1 && 0 <= l < |chat[..i + 1][k].calls| && chat[..i + 1][k].calls[l].name == name;
      assert k < i ==> chat[..i][k] == chat[k];
    }
    if exists l :: 0 <= l < |chat[i].calls| && chat[i].calls[l].name == name {
      assert chat[..i + 1][i] == chat[i];
    }
  }
}
