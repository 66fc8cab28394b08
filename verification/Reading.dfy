/** What holds of every conversation Convert writes: calls next to their results, people's words
    joined, other agents' blocks and private inputs out of reach. */
module Reading {
  import opened Text
  import opened Messages
  import opened Convert

  // --- Who made which call ---

  ghost predicate Makes(calls: seq<ToolCall>, id: string) {
    exists j :: 0 <= j < |calls| && calls[j].id == id
  }

  ghost predicate MakesPrivate(v: View, calls: seq<ToolCall>, id: string) {
    exists j :: 0 <= j < |calls| && calls[j].id == id && calls[j].name in v.private
  }

  /** What c records of the call id is what one of m's calls is. */
  ghost predicate Recorded(v: View, m: Message, calls: seq<ToolCall>, id: string, c: Calls)
    requires id in c.others
  {
    exists j :: 0 <= j < |calls| && calls[j].id == id && c.others[id] == OtherCall(calls[j].name, LabelOf(v, m))
  }

  /** A call ID is made once in the conversation. */
  ghost predicate UniqueCalls(ms: seq<Message>) {
    forall i, j, k, l ::
      0 <= i < |ms| && 0 <= j < |ms[i].calls| && 0 <= k < |ms| && 0 <= l < |ms[k].calls| && ms[i].calls[j].id == ms[k].calls[l].id
      ==> i == k && j == l
  }

  lemma {:induction false} AddCallsMeans(v: View, m: Message, calls: seq<ToolCall>, c: Calls, id: string)
    ensures var r := AddCalls(v, m, calls, c);
      && (id in r.called <==> id in c.called || Makes(calls, id))
      && (id in r.others <==> id in c.others || (Other(v, m) && Makes(calls, id)))
      && (id in r.hidden <==> id in c.hidden || (ForAnotherUser(v, m) && MakesPrivate(v, calls, id)))
      && (id in r.others && !(id in c.others && r.others[id] == c.others[id]) ==> Other(v, m) && Recorded(v, m, calls, id, r))
  {
    if calls != [] {
      var n := |calls| - 1;
      AddCallsMeans(v, m, calls[..n], c, id);
      assert forall j :: 0 <= j < n ==> calls[..n][j] == calls[j];
    }
  }

  lemma {:induction false} CallsOfMeans(v: View, ms: seq<Message>, id: string)
    ensures var c := CallsOf(v, ms);
      && (id in c.called <==> exists i :: 0 <= i < |ms| && Makes(ms[i].calls, id))
      && (id in c.others <==> exists i :: 0 <= i < |ms| && Other(v, ms[i]) && Makes(ms[i].calls, id))
      && (id in c.hidden <==> exists i :: 0 <= i < |ms| && ForAnotherUser(v, ms[i]) && MakesPrivate(v, ms[i].calls, id))
      && (id in c.others ==> exists i :: 0 <= i < |ms| && Other(v, ms[i]) && Recorded(v, ms[i], ms[i].calls, id, c))
  {
    if ms != [] {
      var n := |ms| - 1;
      CallsOfMeans(v, ms[..n], id);
      AddCallsMeans(v, ms[n], ms[n].calls, CallsOf(v, ms[..n]), id);
      assert forall i :: 0 <= i < n ==> ms[..n][i] == ms[i];
    }
  }

  // --- Two runs that differ in private inputs and results only ---

  /** A call whose input and result the reader must not see. */
  predicate SecretCall(v: View, m: Message, tc: ToolCall) {
    tc.name in v.private && (Other(v, m) || ForAnotherUser(v, m))
  }

  /** The result of a secret call, or of a call nowhere in the conversation. */
  ghost predicate SecretResult(v: View, ms: seq<Message>, id: string) {
    (exists i, j :: 0 <= i < |ms| && 0 <= j < |ms[i].calls| && ms[i].calls[j].id == id && SecretCall(v, ms[i], ms[i].calls[j]))
    || !exists i :: 0 <= i < |ms| && Makes(ms[i].calls, id)
  }

  /** The same message but for what is secret in it. */
  ghost predicate SameButSecrets(v: View, ms: seq<Message>, m: Message, n: Message) {
    && n == m.(calls := n.calls, result := n.result)
    && |n.calls| == |m.calls|
    && (forall j :: 0 <= j < |m.calls| ==> n.calls[j].id == m.calls[j].id && n.calls[j].name == m.calls[j].name)
    && (forall j :: 0 <= j < |m.calls| ==> SecretCall(v, m, m.calls[j]) || n.calls[j].input == m.calls[j].input)
    && (m.result.Some? <==> n.result.Some?)
    && (m.result.Some? ==>
         && n.result.value == m.result.value.(content := n.result.value.content)
         && (SecretResult(v, ms, m.result.value.callId) || n.result == m.result))
  }

  ghost predicate AllSameButSecrets(v: View, ms: seq<Message>, ns: seq<Message>) {
    |ns| == |ms| && forall i :: 0 <= i < |ms| ==> SameButSecrets(v, ms, ms[i], ns[i])
  }

  lemma {:induction false} SameAddCalls(v: View, m: Message, n: Message, k: nat, c: Calls)
    requires k <= |m.calls| == |n.calls|
    requires n == m.(calls := n.calls, result := n.result)
    requires forall j :: 0 <= j < |m.calls| ==> n.calls[j].id == m.calls[j].id && n.calls[j].name == m.calls[j].name
    ensures AddCalls(v, m, m.calls[..k], c) == AddCalls(v, n, n.calls[..k], c)
  {
    if k > 0 {
      SameAddCalls(v, m, n, k - 1, c);
      assert m.calls[..k][..k - 1] == m.calls[..k - 1];
      assert n.calls[..k][..k - 1] == n.calls[..k - 1];
    }
  }

  lemma {:induction false} SameCalls(v: View, ms: seq<Message>, ns: seq<Message>, k: nat)
    requires AllSameButSecrets(v, ms, ns) && k <= |ms|
    ensures CallsOf(v, ms[..k]) == CallsOf(v, ns[..k])
  {
    if k > 0 {
      var m, n := ms[k - 1], ns[k - 1];
      SameCalls(v, ms, ns, k - 1);
      assert ms[..k][..k - 1] == ms[..k - 1] && ns[..k][..k - 1] == ns[..k - 1];
      SameAddCalls(v, m, n, |m.calls|, CallsOf(v, ms[..k - 1]));
      assert m.calls[..|m.calls|] == m.calls && n.calls[..|m.calls|] == n.calls;
    }
  }

  /** Another agent's calls show as much of either. */
  lemma {:induction false} SameLines(v: View, who: string, calls: seq<ToolCall>, other: seq<ToolCall>)
    requires |other| == |calls|
    requires forall j :: 0 <= j < |calls| ==> other[j].name == calls[j].name && (calls[j].name in v.private || other[j].input == calls[j].input)
    ensures CallLines(v, who, calls) == CallLines(v, who, other)
  {
    if calls != [] {
      SameLines(v, who, calls[..|calls| - 1], other[..|calls| - 1]);
    }
  }

  /** A secret result is hidden however its call is found. */
  lemma SecretResultsHide(v: View, ms: seq<Message>, id: string)
    requires UniqueCalls(ms) && SecretResult(v, ms, id)
    ensures var c := CallsOf(v, ms);
      if id in c.others then c.others[id].tool in v.private else id in c.hidden || id !in c.called
  {
    CallsOfMeans(v, ms, id);
    var c := CallsOf(v, ms);
    if id in c.called {
      var i, j :| 0 <= i < |ms| && 0 <= j < |ms[i].calls| && ms[i].calls[j].id == id && SecretCall(v, ms[i], ms[i].calls[j]);
      assert Makes(ms[i].calls, id);
      if id in c.others {
        var k :| 0 <= k < |ms| && Other(v, ms[k]) && Recorded(v, ms[k], ms[k].calls, id, c);
        var l :| 0 <= l < |ms[k].calls| && ms[k].calls[l].id == id && c.others[id] == OtherCall(ms[k].calls[l].name, LabelOf(v, ms[k]));
        assert i == k && j == l;
      } else {
        assert ForAnotherUser(v, ms[i]) && MakesPrivate(v, ms[i].calls, id);
      }
    }
  }

  lemma SameOther(v: View, ms: seq<Message>, m: Message, n: Message)
    requires SameButSecrets(v, ms, m, n) && Other(v, m)
    ensures OtherTurn(v, m) == OtherTurn(v, n)
  {
    SameLines(v, LabelOf(v, m), m.calls, n.calls);
  }

  /** The calls of m that are secret are among those the first pass hides. */
  ghost predicate SecretsHidden(v: View, m: Message, c: Calls) {
    forall j :: 0 <= j < |m.calls| && SecretCall(v, m, m.calls[j]) && !Other(v, m) ==> m.calls[j].id in c.hidden
  }

  lemma SameOwn(v: View, ms: seq<Message>, m: Message, n: Message)
    requires UniqueCalls(ms) && SameButSecrets(v, ms, m, n) && !Other(v, m) && SecretsHidden(v, m, CallsOf(v, ms))
    requires m.result.Some? ==> m.result.value.callId !in CallsOf(v, ms).others
    ensures OwnMessage(CallsOf(v, ms), m) == OwnMessage(CallsOf(v, ms), n)
  {
    var c := CallsOf(v, ms);
    assert DisplayCalls(c.hidden, m.calls) == DisplayCalls(c.hidden, n.calls);
    if m.result.Some? && SecretResult(v, ms, m.result.value.callId) {
      SecretResultsHide(v, ms, m.result.value.callId);
    }
  }

  lemma SameTask(v: View, m: Message, n: Message)
    requires n == m.(calls := n.calls, result := n.result)
    ensures TaskText(v, m) == TaskText(v, n)
  {
  }

  /** A result of another agent's call shows as much of either. */
  lemma SameOtherResult(v: View, ms: seq<Message>, m: Message, n: Message)
    requires UniqueCalls(ms) && SameButSecrets(v, ms, m, n) && m.result.Some? && m.result.value.callId in CallsOf(v, ms).others
    ensures var call := CallsOf(v, ms).others[m.result.value.callId];
      OtherResult(call, m.result.value, call.tool in v.private) == OtherResult(call, n.result.value, call.tool in v.private)
  {
    if SecretResult(v, ms, m.result.value.callId) { SecretResultsHide(v, ms, m.result.value.callId); }
  }

  lemma SameRead(v: View, ms: seq<Message>, m: Message, n: Message)
    requires UniqueCalls(ms) && SameButSecrets(v, ms, m, n) && SecretsHidden(v, m, CallsOf(v, ms))
    ensures Read(v, CallsOf(v, ms), m) == Read(v, CallsOf(v, ms), n)
  {
    var c := CallsOf(v, ms);
    SameTask(v, m, n);
    if Other(v, m) {
      SameOther(v, ms, m, n);
    } else if m.result.Some? && m.result.value.callId in c.others {
      SameOtherResult(v, ms, m, n);
    } else {
      SameOwn(v, ms, m, n);
    }
  }

  lemma SameStep(v: View, ms: seq<Message>, out: seq<ChatMessage>, m: Message, n: Message)
    requires UniqueCalls(ms) && SameButSecrets(v, ms, m, n) && SecretsHidden(v, m, CallsOf(v, ms))
    ensures Step(v, CallsOf(v, ms), out, m) == Step(v, CallsOf(v, ms), out, n)
  {
    SameRead(v, ms, m, n);
  }

  lemma {:induction false} SameTranslation(v: View, ms: seq<Message>, ns: seq<Message>, k: nat)
    requires UniqueCalls(ms) && AllSameButSecrets(v, ms, ns) && k <= |ms|
    ensures Translate(v, CallsOf(v, ms), ms[..k]) == Translate(v, CallsOf(v, ms), ns[..k])
  {
    if k > 0 {
      var m, n := ms[k - 1], ns[k - 1];
      SameTranslation(v, ms, ns, k - 1);
      assert ms[..k][..k - 1] == ms[..k - 1] && ns[..k][..k - 1] == ns[..k - 1];
      forall j | 0 <= j < |m.calls| && SecretCall(v, m, m.calls[j]) && !Other(v, m)
        ensures m.calls[j].id in CallsOf(v, ms).hidden
      {
        CallsOfMeans(v, ms, m.calls[j].id);
        assert MakesPrivate(v, ms[k - 1].calls, m.calls[j].id);
      }
      SameStep(v, ms, Translate(v, CallsOf(v, ms), ms[..k - 1]), m, n);
    }
  }

  /** What the reader's model reads does not depend on the inputs and results of private calls made by
      other agents, or by its own turns for another user, nor on results whose call is nowhere. */
  lemma NonInterference(v: View, ms: seq<Message>, ns: seq<Message>)
    requires UniqueCalls(ms) && AllSameButSecrets(v, ms, ns)
    ensures Converted(v, ms) == Converted(v, ns)
  {
    SameCalls(v, ms, ns, |ms|);
    SameTranslation(v, ms, ns, |ms|);
    assert ms[..|ms|] == ms && ns[..|ms|] == ns;
  }

  // --- People's words joined ---

  /** No two plain user texts in a row, none of them empty. */
  ghost predicate Alternates(out: seq<ChatMessage>) {
    && (forall i :: 0 <= i < |out| - 1 ==> PlainUserText(out[i]).None? || PlainUserText(out[i + 1]).None?)
    && (forall i :: 0 <= i < |out| ==> PlainUserText(out[i]) != Some(""))
  }

  lemma AppendAlternates(out: seq<ChatMessage>, text: string)
    requires Alternates(out)
    ensures Alternates(AppendUserText(out, text))
  {
    var r := AppendUserText(out, text);
    var n := |out|;
    if text != "" && n > 0 && PlainUserText(out[n - 1]).Some? {
      var joined := UserText(PlainUserText(out[n - 1]).value + "\n\n" + text);
      assert r == out[..n - 1] + [joined];
      forall i | 0 <= i < |r| - 1
        ensures PlainUserText(r[i]).None? || PlainUserText(r[i + 1]).None?
      {
        assert r[i] == out[i];
        assert PlainUserText(out[i]).None? || PlainUserText(out[i + 1]).None?;
      }
    }
  }

  /** Whatever the history, the model reads people and agents' texts as one message between two others. */
  lemma {:induction false} TextsAreJoined(v: View, c: Calls, ms: seq<Message>)
    ensures Alternates(Translate(v, c, ms))
  {
    if ms != [] {
      var m, out := ms[|ms| - 1], Translate(v, c, ms[..|ms| - 1]);
      TextsAreJoined(v, c, ms[..|ms| - 1]);
      var next := Step(v, c, out, m);
      match Read(v, c, m)
      case Words(text) => AppendAlternates(out, text);
      case Block(cm) =>
    }
  }

  // --- Calls next to their results ---

  /** The IDs of the calls whose results are still to come, None once a message breaks the rule: the
      results of a message's calls follow it at once, in their order, and nothing else does. */
  function Scan(ms: seq<Message>): Option<seq<string>> {
    if ms == [] then Some([])
    else ScanNext(Scan(ms[..|ms| - 1]), ms[|ms| - 1].calls, ms[|ms| - 1].result)
  }

  function ScanNext(pending: Option<seq<string>>, calls: seq<ToolCall>, result: Option<ToolResult>): Option<seq<string>> {
    match pending
    case None => None
    case Some(ids) =>
      match result
      case None => if ids == [] then Some(CallIds(calls)) else None
      case Some(r) => if ids != [] && ids[0] == r.callId && calls == [] then Some(ids[1..]) else None
  }

  /** The same of what a model reads. */
  function ScanChat(out: seq<ChatMessage>): Option<seq<string>> {
    if out == [] then Some([])
    else ScanNext(ScanChat(out[..|out| - 1]), out[|out| - 1].calls, out[|out| - 1].result)
  }

  /** A message as the program stores one: calls in an agent's message, a result alone in a tool's. */
  predicate WellShaped(m: Message) {
    && (m.calls != [] ==> m.role == Assistant && m.result.None? && m.kind == Kind.Ordinary)
    && (m.result.Some? ==> m.role == Tool && m.calls == [] && m.kind == Kind.Ordinary)
  }

  lemma {:induction false} ScanSplit(ms: seq<Message>, more: seq<Message>)
    requires Scan(ms) == Some([])
    ensures Scan(ms + more) == Scan(more)
  {
    if more == [] {
      assert ms + more == ms;
    } else {
      var n := |more| - 1;
      ScanSplit(ms, more[..n]);
      assert (ms + more)[..|ms + more| - 1] == ms + more[..n];
    }
  }

  lemma {:induction false} ScanPrefix(ms: seq<Message>, k: nat)
    requires Scan(ms).Some? && k <= |ms|
    ensures Scan(ms[..k]).Some?
    decreases |ms|
  {
    if k < |ms| {
      assert ms[..|ms| - 1][..k] == ms[..k];
      ScanPrefix(ms[..|ms| - 1], k);
    } else {
      assert ms[..k] == ms;
    }
  }

  /** The calls awaiting results are the last ones of one message. */
  lemma {:induction false} PendingFrom(ms: seq<Message>) returns (i: nat, k: nat)
    requires Scan(ms).Some? && Scan(ms).value != []
    ensures i < |ms| && k < |ms[i].calls| && Scan(ms).value == CallIds(ms[i].calls)[k..]
  {
    var n := |ms| - 1;
    if ms[n].result.None? {
      i, k := n, 0;
    } else {
      i, k := PendingFrom(ms[..n]);
      k := k + 1;
    }
  }

  /** Some calls of one message, all made by another agent, or none. */
  lemma PendingOfOne(v: View, all: seq<Message>, k: nat)
    requires UniqueCalls(all) && k <= |all| && Scan(all[..k]).Some?
    ensures var c, ids := CallsOf(v, all), Scan(all[..k]).value;
      (forall id :: id in ids ==> id in c.others) || (forall id :: id in ids ==> id !in c.others)
  {
    var c, ids := CallsOf(v, all), Scan(all[..k]).value;
    if ids != [] {
      var i, l := PendingFrom(all[..k]);
      forall id | id in ids
        ensures id in c.others <==> Other(v, all[i])
      {
        OwnerDecides(v, all, i, id);
      }
    }
  }

  /** A call is another agent's exactly when the one message that makes it is. */
  lemma OwnerDecides(v: View, all: seq<Message>, i: nat, id: string)
    requires UniqueCalls(all) && i < |all| && id in CallIds(all[i].calls)
    ensures id in CallsOf(v, all).others <==> Other(v, all[i])
  {
    var j :| 0 <= j < |all[i].calls| && all[i].calls[j].id == id;
    CallsOfMeans(v, all, id);
    assert Makes(all[i].calls, id);
    if id in CallsOf(v, all).others {
      var k :| 0 <= k < |all| && Other(v, all[k]) && Makes(all[k].calls, id);
      var l :| 0 <= l < |all[k].calls| && all[k].calls[l].id == id;
      assert i == k;
    }
  }

  lemma ScanAppend(out: seq<ChatMessage>, cm: ChatMessage)
    ensures ScanChat(out + [cm]) == ScanNext(ScanChat(out), cm.calls, cm.result)
  {
    assert (out + [cm])[..|out|] == out;
  }

  lemma UserTextScans(out: seq<ChatMessage>, text: string)
    requires ScanChat(out) == Some([])
    ensures ScanChat(AppendUserText(out, text)) == Some([])
  {
    var n := |out|;
    if text != "" && n > 0 && PlainUserText(out[n - 1]).Some? {
      ScanAppend(out[..n - 1], UserText(PlainUserText(out[n - 1]).value + "\n\n" + text));
    } else if text != "" {
      ScanAppend(out, UserText(text));
    }
  }

  /** What the model has to see the results of: the pending calls when they are its own agent's. */
  predicate ScansAs(c: Calls, pending: Option<seq<string>>, out: seq<ChatMessage>) {
    match pending
    case None => false
    case Some(ids) => ScanChat(out) == Some(if ids != [] && ids[0] in c.others then [] else ids)
  }

  lemma CallsScan(v: View, c: Calls, m: Message, out: seq<ChatMessage>)
    requires WellShaped(m) && m.result.None? && ScanChat(out) == Some([])
    requires m.calls != [] ==> (m.calls[0].id in c.others <==> Other(v, m))
    ensures ScansAs(c, Some(CallIds(m.calls)), Step(v, c, out, m))
  {
    match Read(v, c, m)
    case Words(text) =>
      UserTextScans(out, text);
    case Block(cm) =>
      ScanAppend(out, cm);
      assert CallIds(cm.calls) == CallIds(m.calls);
  }

  lemma ResultScans(v: View, c: Calls, m: Message, ids: seq<string>, out: seq<ChatMessage>)
    requires WellShaped(m) && m.result.Some? && ids != [] && ids[0] == m.result.value.callId
    requires ScansAs(c, Some(ids), out)
    requires (forall id :: id in ids ==> id in c.others) || (forall id :: id in ids ==> id !in c.others)
    ensures ScansAs(c, Some(ids[1..]), Step(v, c, out, m))
  {
    assert |ids| > 1 ==> ids[1] in ids && ids[1..][0] == ids[1];
    match Read(v, c, m)
    case Words(text) =>
      UserTextScans(out, text);
    case Block(cm) =>
      assert |cm.calls| == 0;
      ScanAppend(out, cm);
  }

  lemma StepScans(v: View, all: seq<Message>, k: nat, out: seq<ChatMessage>)
    requires UniqueCalls(all) && k < |all| && WellShaped(all[k])
    requires Scan(all[..k]).Some? && Scan(all[..k + 1]).Some? && ScansAs(CallsOf(v, all), Scan(all[..k]), out)
    ensures ScansAs(CallsOf(v, all), Scan(all[..k + 1]), Step(v, CallsOf(v, all), out, all[k]))
  {
    var m, c := all[k], CallsOf(v, all);
    assert all[..k + 1][..k] == all[..k];
    var ids := Scan(all[..k]).value;
    if m.result.None? {
      if m.calls != [] { OwnerDecides(v, all, k, CallIds(m.calls)[0]); }
      CallsScan(v, c, m, out);
    } else {
      PendingOfOne(v, all, k);
      ResultScans(v, c, m, ids, out);
    }
  }

  lemma TranslateStep(v: View, c: Calls, all: seq<Message>, k: nat)
    requires k < |all|
    ensures Translate(v, c, all[..k + 1]) == Step(v, c, Translate(v, c, all[..k]), all[k])
  {
    assert all[..k + 1][..k] == all[..k];
  }

  lemma {:induction false} TranslationScans(v: View, all: seq<Message>, k: nat, c: Calls)
    requires UniqueCalls(all) && k <= |all| && Scan(all).Some? && c == CallsOf(v, all)
    requires forall i :: 0 <= i < |all| ==> WellShaped(all[i])
    ensures ScansAs(c, Scan(all[..k]), Translate(v, c, all[..k]))
  {
    ScanPrefix(all, k);
    if k > 0 {
      ScanPrefix(all, k - 1);
      TranslationScans(v, all, k - 1, c);
      StepScans(v, all, k - 1, Translate(v, c, all[..k - 1]));
      TranslateStep(v, c, all, k - 1);
    }
  }

  /** A history that keeps each call with its results is read with each call followed by its results. */
  lemma CallsKeepTheirResults(v: View, ms: seq<Message>)
    requires UniqueCalls(ms) && Scan(ms) == Some([])
    requires forall i :: 0 <= i < |ms| ==> WellShaped(ms[i])
    ensures ScanChat(Converted(v, ms)) == Some([])
  {
    TranslationScans(v, ms, |ms|, CallsOf(v, ms));
    assert ms[..|ms|] == ms;
  }

  // --- What a scan that ends well says of each message ---

  /** Each message's calls are followed by their results, as far as out goes. */
  ghost predicate CallsAnswered(out: seq<ChatMessage>, pending: seq<string>) {
    forall i, j :: 0 <= i < |out| && 0 <= j < |out[i].calls| ==> Answered(out, pending, i, j)
  }

  /** The j-th call of the i-th message: its result is the j-th message after it, or the one that comes then. */
  ghost predicate Answered(out: seq<ChatMessage>, pending: seq<string>, i: nat, j: nat)
    requires i < |out| && j < |out[i].calls|
  {
    if i + 1 + j < |out| then out[i + 1 + j].result.Some? && out[i + 1 + j].result.value.callId == out[i].calls[j].id
    else i + 1 + j - |out| < |pending| && pending[i + 1 + j - |out|] == out[i].calls[j].id
  }

  /** Each result has its call, the message of calls it follows. */
  ghost predicate ResultsCalled(out: seq<ChatMessage>) {
    forall k :: 0 <= k < |out| && out[k].result.Some? ==> HasItsCall(out, k)
  }

  ghost predicate HasItsCall(out: seq<ChatMessage>, k: nat)
    requires k < |out| && out[k].result.Some?
  {
    exists i :: 0 <= i < k && k - i - 1 < |out[i].calls| && out[i].calls[k - i - 1].id == out[k].result.value.callId
  }

  ghost predicate PendingLast(out: seq<ChatMessage>, pending: seq<string>) {
    pending == [] || exists i :: 0 <= i < |out| && |out| - i - 1 < |out[i].calls| && pending == CallIds(out[i].calls)[|out| - i - 1..]
  }

  /** A message without result keeps what was answered, and starts what is to be. */
  lemma CallsMean(out: seq<ChatMessage>, cm: ChatMessage)
    requires cm.result.None? && CallsAnswered(out, [])
    ensures CallsAnswered(out + [cm], CallIds(cm.calls)) && PendingLast(out + [cm], CallIds(cm.calls))
  {
    var r, ids := out + [cm], CallIds(cm.calls);
    forall i, j | 0 <= i < |r| && 0 <= j < |r[i].calls|
      ensures Answered(r, ids, i, j)
    {
      if i < |out| {
        assert Answered(out, [], i, j);
        assert r[i] == out[i] && r[i + 1 + j] == out[i + 1 + j];
      }
    }
    assert CallIds(r[|out|].calls)[0..] == ids;
  }

  /** The calls awaiting results after one got its own: the rest of the same message's. */
  lemma PendingNext(out: seq<ChatMessage>, cm: ChatMessage, ids: seq<string>, i: nat)
    requires i < |out| && |out| - i - 1 < |out[i].calls| && ids == CallIds(out[i].calls)[|out| - i - 1..] && cm.calls == []
    ensures ids != [] && ids[0] == out[i].calls[|out| - i - 1].id && PendingLast(out + [cm], ids[1..])
  {
    var r, n := out + [cm], |out|;
    assert ids[0] == CallIds(out[i].calls)[n - i - 1];
    assert r[i] == out[i];
    assert ids[1..] == CallIds(r[i].calls)[|r| - i - 1..];
  }

  lemma AnsweredNext(out: seq<ChatMessage>, cm: ChatMessage, ids: seq<string>, i: nat, j: nat)
    requires CallsAnswered(out, ids) && ids != [] && i < |out| && j < |out[i].calls| && cm.result.Some? && cm.result.value.callId == ids[0]
    ensures (out + [cm])[i] == out[i] && Answered(out + [cm], ids[1..], i, j)
  {
    assert Answered(out, ids, i, j);
    if i + 1 + j < |out| { assert (out + [cm])[i + 1 + j] == out[i + 1 + j]; }
  }

  /** A result answers the first of the calls awaiting one. */
  lemma ResultMeans(out: seq<ChatMessage>, cm: ChatMessage, ids: seq<string>)
    requires CallsAnswered(out, ids) && PendingLast(out, ids) && ids != []
    requires cm.calls == [] && cm.result.Some? && cm.result.value.callId == ids[0]
    ensures CallsAnswered(out + [cm], ids[1..]) && PendingLast(out + [cm], ids[1..]) && HasItsCall(out + [cm], |out|)
  {
    var r, n := out + [cm], |out|;
    var i :| 0 <= i < n && n - i - 1 < |out[i].calls| && ids == CallIds(out[i].calls)[n - i - 1..];
    PendingNext(out, cm, ids, i);
    assert r[i].calls[n - i - 1].id == r[n].result.value.callId;
    forall k, j | 0 <= k < |r| && 0 <= j < |r[k].calls| ensures Answered(r, ids[1..], k, j) {
      if k < n { AnsweredNext(out, cm, ids, k, j); }
    }
  }

  lemma ResultsStay(out: seq<ChatMessage>, cm: ChatMessage)
    requires ResultsCalled(out) && (cm.result.Some? ==> HasItsCall(out + [cm], |out|))
    ensures ResultsCalled(out + [cm])
  {
    forall k | 0 <= k < |out| && (out + [cm])[k].result.Some? ensures HasItsCall(out + [cm], k) {
      assert HasItsCall(out, k);
      var i :| 0 <= i < k && k - i - 1 < |out[i].calls| && out[i].calls[k - i - 1].id == out[k].result.value.callId;
      assert (out + [cm])[i] == out[i];
    }
  }

  /** A scan that went well: every call has its result in its place, every result its call. */
  lemma {:induction false} ScanMeans(out: seq<ChatMessage>)
    requires ScanChat(out).Some?
    ensures CallsAnswered(out, ScanChat(out).value) && ResultsCalled(out) && PendingLast(out, ScanChat(out).value)
  {
    if out != [] {
      var before, cm := out[..|out| - 1], out[|out| - 1];
      ScanMeans(before);
      assert out == before + [cm];
      if cm.result.Some? {
        ResultMeans(before, cm, ScanChat(before).value);
      } else {
        CallsMean(before, cm);
      }
      ResultsStay(before, cm);
    }
  }

  // --- Nothing of another agent's turn but text ---

  /** Every message the model reads as an agent's, or as a tool's result, is its own agent's or nobody's. */
  ghost predicate OwnBlocks(v: View, ms: seq<Message>, c: Calls, out: seq<ChatMessage>) {
    forall k :: 0 <= k < |out| ==>
      && (out[k].role != User || out[k].calls != [] ==> exists i :: 0 <= i < |ms| && out[k] == OwnMessage(c, ms[i]) && !Other(v, ms[i]))
      && (out[k].result.Some? ==> out[k].result.value.callId !in c.others)
  }

  lemma {:induction false} NoOtherBlocks(v: View, c: Calls, ms: seq<Message>)
    ensures OwnBlocks(v, ms, c, Translate(v, c, ms))
  {
    if ms != [] {
      var n := |ms| - 1;
      NoOtherBlocks(v, c, ms[..n]);
      OwnBlocksKept(v, ms, c, Translate(v, c, ms[..n]), Read(v, c, ms[n]));
    }
  }

  lemma MoreMessages(v: View, ms: seq<Message>, c: Calls, out: seq<ChatMessage>)
    requires ms != [] && OwnBlocks(v, ms[..|ms| - 1], c, out)
    ensures OwnBlocks(v, ms, c, out)
  {
    forall k | 0 <= k < |out| && (out[k].role != User || out[k].calls != [])
      ensures exists i :: 0 <= i < |ms| && out[k] == OwnMessage(c, ms[i]) && !Other(v, ms[i])
    {
      var i :| 0 <= i < |ms| - 1 && out[k] == OwnMessage(c, ms[..|ms| - 1][i]) && !Other(v, ms[..|ms| - 1][i]);
      assert ms[..|ms| - 1][i] == ms[i];
    }
  }

  lemma WordsKeep(v: View, ms: seq<Message>, c: Calls, out: seq<ChatMessage>, text: string)
    requires OwnBlocks(v, ms, c, out)
    ensures OwnBlocks(v, ms, c, AppendUserText(out, text))
  {
  }

  lemma BlockKeeps(v: View, ms: seq<Message>, c: Calls, out: seq<ChatMessage>, cm: ChatMessage, i: nat)
    requires OwnBlocks(v, ms, c, out) && i < |ms| && cm == OwnMessage(c, ms[i]) && !Other(v, ms[i])
    requires cm.result.Some? ==> cm.result.value.callId !in c.others
    ensures OwnBlocks(v, ms, c, out + [cm])
  {
  }

  /** What is read as a message is the agent's own, or nobody's. */
  lemma BlockIsOwn(v: View, c: Calls, m: Message)
    ensures Read(v, c, m).Block? ==> var cm := Read(v, c, m).cm;
      cm == OwnMessage(c, m) && !Other(v, m) && (cm.result.Some? ==> cm.result.value.callId !in c.others)
  {
  }

  lemma OwnBlocksKept(v: View, ms: seq<Message>, c: Calls, out: seq<ChatMessage>, r: Reading)
    requires ms != [] && OwnBlocks(v, ms[..|ms| - 1], c, out) && r == Read(v, c, ms[|ms| - 1])
    ensures OwnBlocks(v, ms, c, Step(v, c, out, ms[|ms| - 1]))
  {
    MoreMessages(v, ms, c, out);
    BlockIsOwn(v, c, ms[|ms| - 1]);
    match r
    case Words(text) => WordsKeep(v, ms, c, out, text);
    case Block(cm) => BlockKeeps(v, ms, c, out, cm, |ms| - 1);
  }

  // --- The conversation only grows at its end ---

  /** A message of the reading turn: an answer, calls, or the result of a call no other agent made. */
  predicate OwnProduct(v: View, c: Calls, m: Message) {
    && m.role != User && m.kind == Kind.Ordinary
    && !Other(v, m) && !ForAnotherUser(v, m)
    && (m.result.Some? ==> m.result.value.callId !in c.others)
  }

  lemma {:induction false} OwnCallsAdd(v: View, ms: seq<Message>, more: seq<Message>)
    requires forall i :: 0 <= i < |more| ==> !Other(v, more[i]) && !ForAnotherUser(v, more[i])
    ensures var c, d := CallsOf(v, ms), CallsOf(v, ms + more);
      d.others == c.others && d.hidden == c.hidden && c.called <= d.called
  {
    if more == [] {
      assert ms + more == ms;
    } else {
      var n := |more| - 1;
      OwnCallsAdd(v, ms, more[..n]);
      assert (ms + more)[..|ms + more| - 1] == ms + more[..n];
      OwnCallsOnly(v, more[n], more[n].calls, CallsOf(v, ms + more[..n]));
    }
  }

  lemma {:induction false} OwnCallsOnly(v: View, m: Message, calls: seq<ToolCall>, c: Calls)
    requires !Other(v, m) && !ForAnotherUser(v, m)
    ensures var d := AddCalls(v, m, calls, c); d.others == c.others && d.hidden == c.hidden && c.called <= d.called
  {
    if calls != [] {
      OwnCallsOnly(v, m, calls[..|calls| - 1], c);
    }
  }

  lemma SameReadOne(v: View, m: Message, c: Calls, d: Calls)
    requires d.others == c.others && d.hidden == c.hidden
    requires m.result.Some? ==> (m.result.value.callId in c.called <==> m.result.value.callId in d.called)
    ensures Read(v, c, m) == Read(v, d, m)
  {
    assert OwnMessage(c, m) == OwnMessage(d, m);
  }

  /** Later calls of the turn change nothing in how the earlier messages read. */
  lemma {:induction false} SameReading(v: View, ms: seq<Message>, c: Calls, d: Calls)
    requires d.others == c.others && d.hidden == c.hidden
    requires forall i :: 0 <= i < |ms| && ms[i].result.Some? ==> (ms[i].result.value.callId in c.called <==> ms[i].result.value.callId in d.called)
    ensures Translate(v, c, ms) == Translate(v, d, ms)
  {
    if ms != [] {
      var n := |ms| - 1;
      assert forall i :: 0 <= i < n ==> ms[..n][i] == ms[i];
      SameReading(v, ms[..n], c, d);
      SameReadOne(v, ms[n], c, d);
    }
  }

  lemma {:induction false} OwnAppended(v: View, c: Calls, ms: seq<Message>, more: seq<Message>)
    requires forall i :: 0 <= i < |more| ==> OwnProduct(v, c, more[i])
    ensures Translate(v, c, ms) <= Translate(v, c, ms + more)
  {
    if more == [] {
      assert ms + more == ms;
    } else {
      var n := |more| - 1;
      OwnAppended(v, c, ms, more[..n]);
      assert (ms + more)[..|ms + more| - 1] == ms + more[..n];
    }
  }

  /** What the turn's next call reads begins with what its last one did, message for message. */
  lemma ConversationExtends(v: View, ms: seq<Message>, more: seq<Message>)
    requires forall i :: 0 <= i < |more| ==> OwnProduct(v, CallsOf(v, ms), more[i])
    requires forall i :: 0 <= i < |ms| && ms[i].result.Some? ==>
      (ms[i].result.value.callId in CallsOf(v, ms).called <==> ms[i].result.value.callId in CallsOf(v, ms + more).called)
    ensures Converted(v, ms) <= Converted(v, ms + more)
  {
    OwnCallsAdd(v, ms, more);
    SameReading(v, ms, CallsOf(v, ms), CallsOf(v, ms + more));
    OwnAppended(v, CallsOf(v, ms + more), ms, more);
  }
}
