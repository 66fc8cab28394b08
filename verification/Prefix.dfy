/** What a turn reads of the others stays put while it goes on: the prefix its calls share (activity/llm.go). */
module Prefix {
  import opened Text
  import opened Keys
  import opened Messages
  import opened Order
  import opened Scope
  import opened Session
  import opened Convert
  import opened Reading
  import opened Conversation
  import opened Answers

  // --- The others' messages do not move ---

  /** A step stores more of another turn that t reads: one relayed to it and run again, or one ended by then
      that goes on. */
  ghost predicate Disturbs(s: Session, e: Event, t: Turn)
    requires t in s.runs
  {
    && e.Write? && e.turn != t && |Written(s.rows, e.turn)| < e.upTo
    && ReadsTurn(e.turn, t, s.runs[t].earlier, EndIds(s.rows))
  }

  /** A row a turn in progress does not read: stored after its message, by no turn it reads. */
  lemma NewUnread(s: Session, t: Turn, x: Entry)
    requires Inv(s) && Active(s, t) && x.id >= s.next && !x.key.End?
    requires x.key.Produced? ==> x.key.turn == t || !ReadsTurn(x.key.turn, t, s.runs[t].earlier, EndIds(s.rows))
    ensures !Reads(x, t, s.runs[t].earlier, EndIds(s.rows)) || x.key.Writer() == Some(t)
  {
    assert t.anchor < s.next;
  }

  /** An end stored after the turn's message tells it nothing. */
  lemma NewEndUnread(s: Session, t: Turn, u: Turn, id: int, v: Turn)
    requires Inv(s) && Active(s, t) && !HasKey(s.rows, End(u)) && id >= s.next
    ensures ReadsTurn(v, t, s.runs[t].earlier, EndIds(s.rows)) <==> ReadsTurn(v, t, s.runs[t].earlier, EndIds(s.rows)[u := id])
  {
    assert t.anchor < s.next;
    if u in EndIds(s.rows) && EndIds(s.rows)[u] <= t.anchor { EndedIsBefore(s, u, t.anchor); }
  }

  lemma {:induction false} EndsAppended(rows: seq<Entry>, more: seq<Entry>)
    requires forall i :: 0 <= i < |more| ==> !more[i].key.End?
    ensures EndIds(rows + more) == EndIds(rows)
  {
    if more == [] {
      assert rows + more == rows;
    } else {
      EndsAppended(rows, more[..|more| - 1]);
      assert (rows + more)[..|rows + more| - 1] == rows + more[..|more| - 1];
    }
  }

  lemma EndAppended(rows: seq<Entry>, e: Entry)
    requires e.key.End?
    ensures EndIds(rows + [e]) == EndIds(rows)[e.key.turn := e.id]
  {
    assert (rows + [e])[..|rows|] == rows;
  }

  /** Messages of no turn, or of turns it does not read, leave what a turn reads of the others. */
  lemma MessagesUnread(s: Session, t: Turn, more: seq<Entry>)
    requires Inv(s) && Active(s, t)
    requires forall i :: 0 <= i < |more| ==> more[i].id >= s.next && !more[i].key.End?
    requires forall i :: 0 <= i < |more| && more[i].key.Produced? ==>
      more[i].key.turn == t || !ReadsTurn(more[i].key.turn, t, s.runs[t].earlier, EndIds(s.rows))
    ensures Base(s.rows + more, t, s.runs[t].earlier, EndIds(s.rows + more)) == BaseOf(s, t)
  {
    EndsAppended(s.rows, more);
    forall x | x in more ensures !Reads(x, t, s.runs[t].earlier, EndIds(s.rows)) || x.key.Writer() == Some(t) { NewUnread(s, t, x); }
    BaseKept(s.rows, more, t, s.runs[t].earlier, EndIds(s.rows));
  }

  lemma EndUnread(s: Session, t: Turn, x: Entry)
    requires Inv(s) && Active(s, t) && x.id >= s.next && x.key.End? && !HasKey(s.rows, x.key)
    ensures Base(s.rows + [x], t, s.runs[t].earlier, EndIds(s.rows + [x])) == BaseOf(s, t)
  {
    var earlier, ends := s.runs[t].earlier, EndIds(s.rows);
    EndAppended(s.rows, x);
    forall v ensures ReadsTurn(v, t, earlier, ends) <==> ReadsTurn(v, t, earlier, ends[x.key.turn := x.id]) {
      NewEndUnread(s, t, x.key.turn, x.id, v);
    }
    BaseOfEnds(s.rows, t, earlier, ends, ends[x.key.turn := x.id]);
    BaseKept(s.rows, [x], t, earlier, ends[x.key.turn := x.id]);
  }

  lemma OneUnread(s: Session, t: Turn, key: Key, msg: Message, id: int)
    requires Inv(s) && Active(s, t) && id >= s.next && !key.Produced?
    ensures var rows := AppendOne(s.rows, key, msg, id); Base(rows, t, s.runs[t].earlier, EndIds(rows)) == BaseOf(s, t)
  {
    if !KeyIn(s.rows, key) {
      if key.End? { EndUnread(s, t, Entry(id, key, msg)); } else { MessagesUnread(s, t, [Entry(id, key, msg)]); }
    }
  }

  lemma BatchUnread(s: Session, e: Event, t: Turn)
    requires Inv(s) && Active(s, t) && Enabled(s, e) && e.Write? && !Disturbs(s, e, t)
    ensures var rows := Apply(s, e).rows; Base(rows, t, s.runs[t].earlier, EndIds(rows)) == BaseOf(s, t)
  {
    var more := WriteAdds(s, e);
    if more == [] { assert s.rows + more == s.rows; } else { MessagesUnread(s, t, more); }
  }

  lemma BatchRead(s: Session, e: Event, t: Turn)
    requires Inv(s) && Active(s, t) && Enabled(s, e) && Disturbs(s, e, t)
    ensures var rows := Apply(s, e).rows; Base(rows, t, s.runs[t].earlier, EndIds(rows)) != BaseOf(s, t)
  {
    var rows, earlier := Apply(s, e).rows, s.runs[t].earlier;
    var more := WriteAdds(s, e);
    EndsAppended(s.rows, more);
    WrittenAppended(s.rows, more, e.turn);
    WrittenBy(more, e.turn, e.turn);
    BaseWholeOrNothing(s.rows, t, earlier, EndIds(s.rows), e.turn);
    BaseWholeOrNothing(rows, t, earlier, EndIds(rows), e.turn);
  }

  /** While a turn is in progress, a step leaves what it reads of the others if and only if it stores no
      more of a turn it reads. */
  lemma BaseStays(s: Session, e: Event, t: Turn)
    requires Inv(s) && Enabled(s, e) && Active(s, t)
    ensures t in Apply(s, e).runs && (BaseOf(Apply(s, e), t) == BaseOf(s, t) <==> !Disturbs(s, e, t))
  {
    RunGoesOn(s, e, t);
    match e
    case Post(key, msg, id) => OneUnread(s, t, key, msg, id);
    case Write(u, from, upTo, ids) => if Disturbs(s, e, t) { BatchRead(s, e, t); } else { BatchUnread(s, e, t); }
    case Finish(u, end, id) => if end.Some? { OneUnread(s, t, End(u), end.value, id); }
    case Drop(u, msg, id) => OneUnread(s, t, End(u), msg, id);
    case _ =>
  }

  // --- From one call of a turn to a later one ---

  /** The turn t goes on, and no other turn it reads stores more. */
  ghost predicate Undisturbed(s: Session, es: seq<Event>, t: Turn)
    decreases |es|
  {
    es == [] || (Enabled(s, es[0]) && Active(s, t) && !Disturbs(s, es[0], t) && Undisturbed(Apply(s, es[0]), es[1..], t))
  }

  ghost predicate NewCalls(s: Session, more: seq<Message>) {
    forall u, id :: u in s.runs && MadeIn(more, id) ==> id !in s.runs[u].made
  }

  /** The turn from s to a later state: its answers after those it had, in calls of their own. */
  ghost predicate Grown(s: Session, next: Session, t: Turn) {
    && t in s.runs && t in next.runs
    && next.runs[t].agent == s.runs[t].agent && next.runs[t].user == s.runs[t].user && next.runs[t].kept == s.runs[t].kept
    && s.runs[t].msgs <= next.runs[t].msgs && NewCalls(s, next.runs[t].msgs[|s.runs[t].msgs|..])
    && BaseOf(next, t) == BaseOf(s, t)
    && (forall u :: u in s.runs ==> u in next.runs && s.runs[u].made <= next.runs[u].made)
  }

  lemma AddsNewCalls(s: Session, e: Event, t: Turn)
    requires Enabled(s, e) && Active(s, t)
    ensures var q := Apply(s, e).runs; t in q && s.runs[t].msgs <= q[t].msgs && NewCalls(s, q[t].msgs[|s.runs[t].msgs|..])
  {
    var more := Apply(s, e).runs[t].msgs[|s.runs[t].msgs|..];
    if e.Produce? && e.turn == t { assert more == e.batch; } else { assert more == []; }
  }

  lemma MadeStays(s: Session, e: Event, u: Turn)
    requires Enabled(s, e) && u in s.runs
    ensures u in Apply(s, e).runs && s.runs[u].made <= Apply(s, e).runs[u].made
  {
  }

  lemma GrowsOne(s: Session, e: Event, t: Turn)
    requires Inv(s) && Enabled(s, e) && Active(s, t) && !Disturbs(s, e, t)
    ensures Grown(s, Apply(s, e), t)
  {
    BaseStays(s, e, t);
    AddsNewCalls(s, e, t);
    RunGoesOn(s, e, t);
    forall u | u in s.runs ensures u in Apply(s, e).runs && s.runs[u].made <= Apply(s, e).runs[u].made { MadeStays(s, e, u); }
  }

  lemma NewCallsJoin(s: Session, next: Session, t: Turn, a: seq<Message>, b: seq<Message>, c: seq<Message>)
    requires a <= b <= c && NewCalls(s, b[|a|..]) && NewCalls(next, c[|b|..])
    requires forall u :: u in s.runs ==> u in next.runs && s.runs[u].made <= next.runs[u].made
    ensures NewCalls(s, c[|a|..])
  {
    assert c[|a|..] == b[|a|..] + c[|b|..];
    forall u, id | u in s.runs && MadeIn(c[|a|..], id) ensures id !in s.runs[u].made {
      MadeInEither(b[|a|..], c[|b|..], id);
      if MadeIn(c[|b|..], id) { assert id !in next.runs[u].made; }
    }
  }

  lemma GrownJoin(s: Session, next: Session, last: Session, t: Turn)
    requires Grown(s, next, t) && Grown(next, last, t)
    ensures Grown(s, last, t)
  {
    NewCallsJoin(s, next, t, s.runs[t].msgs, next.runs[t].msgs, last.runs[t].msgs);
  }

  lemma StaysInOrder(s: Session, e: Event, t: Turn)
    requires Inv(s) && Enabled(s, e) && Active(s, t) && !Disturbs(s, e, t) && InOrder(s, t)
    ensures t in Apply(s, e).runs && InOrder(Apply(s, e), t)
  {
    InOrderStep(s, e, t);
    forall w | w in s.runs[t].earlier ensures !Overtaken(s, e, w, t) { EarlierIsOther(s, t, w); }
  }

  lemma GrownNone(s: Session, t: Turn)
    requires t in s.runs
    ensures Grown(s, s, t)
  {
    assert s.runs[t].msgs[|s.runs[t].msgs|..] == [];
  }

  lemma {:induction false} TurnGrows(s: Session, es: seq<Event>, last: Session, t: Turn)
    requires Inv(s) && Reaches(s, es, last) && t in s.runs && InOrder(s, t) && Undisturbed(s, es, t)
    ensures Inv(last) && Grown(s, last, t) && InOrder(last, t)
    decreases |es|
  {
    if es == [] {
      GrownNone(s, t);
    } else {
      StepKeeps(s, es[0]);
      GrowsOne(s, es[0], t);
      StaysInOrder(s, es[0], t);
      TurnGrows(Apply(s, es[0]), es[1..], last, t);
      GrownJoin(s, Apply(s, es[0]), last, t);
    }
  }

  // --- The prefix a turn's calls share ---

  /** A call a turn makes later is no other agent's among what its earlier call read. */
  lemma OwnCallIsOwn(s: Session, last: Session, t: Turn, v: View, id: string, p: nat)
    requires Inv(s) && Inv(last) && Grown(s, last, t) && v.self == s.runs[t].agent && id in last.runs[t].made
    requires p < |ReadSplit(s, t)| && Makes(ReadSplit(s, t)[p].calls, id)
    ensures !Other(v, ReadSplit(s, t)[p])
  {
    var u, i := Origin(s, t, p);
    HeldCall(s, u, i, id);
    OneTurn(last, u, t, id);
    HeldIsTold(s.runs[t], i);
    assert Signed(Told(s.runs[t])[AtIn(s.runs[t], i)], s.runs[t]);
  }

  /** What this run of a turn produced is signed, and answers its own calls. */
  lemma ProducedIsTold(s: Session, t: Turn, j: nat)
    requires RunsInv(s.runs) && t in s.runs && j < |s.runs[t].msgs|
    ensures Signed(s.runs[t].msgs[j], s.runs[t])
    ensures s.runs[t].msgs[j].result.Some? ==> s.runs[t].msgs[j].result.value.callId in s.runs[t].made
  {
    var r := s.runs[t];
    assert OwnCalls(r) && Told(r)[|r.kept| + j] == r.msgs[j] && Signed(Told(r)[|r.kept| + j], r);
  }

  /** What the turn adds from one call to the next is its own: no other agent's, for no other user. */
  lemma AddsOwn(s: Session, last: Session, t: Turn, v: View, j: nat)
    requires Inv(s) && Inv(last) && Grown(s, last, t) && v.self == s.runs[t].agent && v.user == s.runs[t].user
    requires j < |last.runs[t].msgs|
    ensures OwnProduct(v, CallsOf(v, ReadSplit(s, t)), last.runs[t].msgs[j])
  {
    var m, ms := last.runs[t].msgs[j], ReadSplit(s, t);
    ProducedIsTold(last, t, j);
    if m.result.Some? {
      var id := m.result.value.callId;
      CallsOfMeans(v, ms, id);
      forall p | 0 <= p < |ms| && Makes(ms[p].calls, id) ensures !Other(v, ms[p]) { OwnCallIsOwn(s, last, t, v, id, p); }
    }
  }

  /** A result read answers a call some turn had made. */
  lemma ResultIsKnown(s: Session, t: Turn, p: nat) returns (u: Turn)
    requires Inv(s) && t in s.runs && p < |ReadSplit(s, t)| && ReadSplit(s, t)[p].result.Some?
    ensures u in s.runs && ReadSplit(s, t)[p].result.value.callId in s.runs[u].made
  {
    var i: nat;
    u, i := Origin(s, t, p);
    HeldIsTold(s.runs[u], i);
    assert OwnCalls(s.runs[u]);
  }

  lemma CalledLater(v: View, ms: seq<Message>, more: seq<Message>, id: string)
    requires !MadeIn(more, id)
    ensures id in CallsOf(v, ms).called <==> id in CallsOf(v, ms + more).called
  {
    CallsOfMeans(v, ms, id);
    CallsOfMeans(v, ms + more, id);
    MadeMeans(ms, id);
    MadeMeans(ms + more, id);
    MadeInEither(ms, more, id);
  }

  lemma HeldMore(r: Run, q: Run, n: nat)
    requires q.kept == r.kept && r.msgs <= q.msgs && n == if |r.msgs| < |r.kept| then |r.kept| else |r.msgs|
    ensures Held(q) == Held(r) + Past(q.msgs, n)
  {
  }

  lemma AddedAfter(base: seq<Message>, held: seq<Message>, more: seq<Message>)
    ensures base + (held + more) == (base + held) + more
  {
  }

  lemma SplitInOrder(s: Session, t: Turn)
    requires Inv(s) && t in s.runs && InOrder(s, t)
    ensures ReadSplit(s, t) == Msgs(Ordered(BaseOf(s, t))) + Held(s.runs[t])
  {
    ReadMeans(s, t);
    ReadInOrder(s, t);
  }

  /** The turn's later call adds to what its earlier one read. */
  lemma ReadsMore(s: Session, last: Session, t: Turn) returns (n: nat)
    requires Inv(s) && Inv(last) && Grown(s, last, t) && InOrder(s, t) && InOrder(last, t)
    ensures |s.runs[t].msgs| <= n
    ensures ReadSplit(last, t) == ReadSplit(s, t) + Past(last.runs[t].msgs, n)
  {
    var r, q := s.runs[t], last.runs[t];
    SplitInOrder(s, t);
    SplitInOrder(last, t);
    n := if |r.msgs| < |r.kept| then |r.kept| else |r.msgs|;
    HeldMore(r, q, n);
    AddedAfter(Msgs(Ordered(BaseOf(s, t))), Held(r), Past(q.msgs, n));
  }

  lemma NewlyMade(all: seq<Message>, k: nat, n: nat, id: string)
    requires k <= n && k <= |all| && MadeIn(Past(all, n), id)
    ensures MadeIn(all[k..], id)
  {
    var i, l :| 0 <= i < |Past(all, n)| && 0 <= l < |Past(all, n)[i].calls| && Past(all, n)[i].calls[l].id == id;
    assert all[k..][n - k + i].calls[l].id == id;
  }

  lemma AllAddOwn(s: Session, last: Session, t: Turn, v: View, n: nat)
    requires Inv(s) && Inv(last) && Grown(s, last, t) && v.self == s.runs[t].agent && v.user == s.runs[t].user
    ensures var more := Past(last.runs[t].msgs, n); forall i :: 0 <= i < |more| ==> OwnProduct(v, CallsOf(v, ReadSplit(s, t)), more[i])
  {
    var more := Past(last.runs[t].msgs, n);
    forall i | 0 <= i < |more| ensures OwnProduct(v, CallsOf(v, ReadSplit(s, t)), more[i]) { AddsOwn(s, last, t, v, n + i); }
  }

  lemma SameCalled(s: Session, last: Session, t: Turn, v: View, n: nat, p: nat)
    requires Inv(s) && Grown(s, last, t) && |s.runs[t].msgs| <= n
    requires p < |ReadSplit(s, t)| && ReadSplit(s, t)[p].result.Some?
    ensures var ms, id := ReadSplit(s, t), ReadSplit(s, t)[p].result.value.callId;
      id in CallsOf(v, ms).called <==> id in CallsOf(v, ms + Past(last.runs[t].msgs, n)).called
  {
    var id := ReadSplit(s, t)[p].result.value.callId;
    var u := ResultIsKnown(s, t, p);
    if MadeIn(Past(last.runs[t].msgs, n), id) { NewlyMade(last.runs[t].msgs, |s.runs[t].msgs|, n, id); }
    CalledLater(v, ReadSplit(s, t), Past(last.runs[t].msgs, n), id);
  }

  lemma ReadExtends(s: Session, last: Session, t: Turn, v: View)
    requires Inv(s) && Inv(last) && Grown(s, last, t) && InOrder(s, t) && InOrder(last, t)
    requires v.self == s.runs[t].agent && v.user == s.runs[t].user
    ensures s.runs[t].told <= |s.runs[t].msgs| && last.runs[t].told <= |last.runs[t].msgs|
    ensures Converted(v, ReadBy(s, t)) <= Converted(v, ReadBy(last, t))
  {
    var n := ReadsMore(s, last, t);
    var ms, more := ReadSplit(s, t), Past(last.runs[t].msgs, n);
    AllAddOwn(s, last, t, v, n);
    forall p | 0 <= p < |ms| && ms[p].result.Some?
      ensures ms[p].result.value.callId in CallsOf(v, ms).called <==> ms[p].result.value.callId in CallsOf(v, ms + more).called
    {
      SameCalled(s, last, t, v, n, p);
    }
    ConversationExtends(v, ms, more);
    ReadMeans(s, t);
    ReadMeans(last, t);
  }

  /** Over every run: what a later call of a turn in progress reads begins with what its earlier call read,
      message for message, whatever the other participants write, begin and end in between, as long as the
      turns it reads store no more and it was read in order. */
  lemma CachedPrefix(first: seq<Event>, s: Session, es: seq<Event>, last: Session, t: Turn, v: View)
    requires Reaches(EMPTY, first, s) && t in s.runs && InOrder(s, t) && Reaches(s, es, last) && Undisturbed(s, es, t)
    requires v.self == s.runs[t].agent && v.user == s.runs[t].user
    ensures t in last.runs && s.runs[t].told <= |s.runs[t].msgs| && last.runs[t].told <= |last.runs[t].msgs|
    ensures Converted(v, ReadBy(s, t)) <= Converted(v, ReadBy(last, t))
  {
    RunKeeps(EMPTY, first, s);
    TurnGrows(s, es, last, t);
    ReadExtends(s, last, t, v);
  }

  // --- Each message answered once ---

  lemma OnceDisturbs(s: Session, e: Event, t: Turn)
    requires Inv(s) && Regular(s) && Enabled(s, e) && Active(s, t)
    ensures !Disturbs(s, e, t)
  {
    forall w | w in s.runs[t].earlier ensures !Active(s, w) { EarlierIsOver(s, t, w); }
    if e.Write? && e.turn in EndIds(s.rows) { EndIdsMeans(s.rows, e.turn); }
  }

  lemma OverForGood(s: Session, e: Event, t: Turn)
    requires Enabled(s, e) && t in s.runs && OnceStep(s, e)
    ensures t in Apply(s, e).runs && (Active(Apply(s, e), t) ==> Active(s, t))
  {
  }

  lemma {:induction false} OnceUndisturbed(s: Session, es: seq<Event>, last: Session, t: Turn)
    requires Inv(s) && Regular(s) && Reaches(s, es, last) && Once(s, es) && t in s.runs && Active(last, t)
    ensures Active(s, t) && Undisturbed(s, es, t)
    decreases |es|
  {
    if es != [] {
      OnceStays(s, es[0]);
      StepKeeps(s, es[0]);
      OverForGood(s, es[0], t);
      OnceUndisturbed(Apply(s, es[0]), es[1..], last, t);
      OnceDisturbs(s, es[0], t);
    }
  }

  /** In every run in which each message is answered once, a later call of a turn in progress reads on from
      what any earlier one read. */
  lemma CachedWhenOnce(first: seq<Event>, s: Session, es: seq<Event>, last: Session, t: Turn, v: View)
    requires Reaches(EMPTY, first, s) && Once(EMPTY, first) && t in s.runs && Reaches(s, es, last) && Once(s, es) && Active(last, t)
    requires v.self == s.runs[t].agent && v.user == s.runs[t].user
    ensures s.runs[t].told <= |s.runs[t].msgs| && last.runs[t].told <= |last.runs[t].msgs|
    ensures Converted(v, ReadBy(s, t)) <= Converted(v, ReadBy(last, t))
  {
    RunKeeps(EMPTY, first, s);
    OnceRunsAreHarmless(EMPTY, first, s);
    RunsOwnLast(EMPTY, first, s);
    OnceUndisturbed(s, es, last, t);
    OwnLastMeans(s, t);
    CachedPrefix(first, s, es, last, t, v);
  }
}
