/** What a turn reads of another that is run again, or ended by another and going on (store/message.go):
    its calls no longer share a prefix. */
module Disturbed {
  import opened Text
  import opened Keys
  import opened Messages
  import opened Order
  import opened Scope
  import opened Session
  import opened Convert
  import opened Reading
  import opened Conversation
  import opened Prefix
  import opened Redelivery

  // --- A turn relayed to one in progress is run again ---

  const U := Turn(1, "b")
  const REPLY := Message(Assistant, Plain("."), "u", "b", "", Kind.Ordinary, [], None, "", None)
  const ROW3 := Entry(3, Produced(T, 0), FIRST[0])

  const ENDED := IDLE.(over := true)
  const NEXT := Run("b", "u", {T}, [], [], {}, 0, false, false)
  const REPLIED := NEXT.(msgs := [REPLY])
  const RERUN := Run("a", "u", {}, [], [], {}, 0, false, true)
  const RETOLD := RERUN.(msgs := FIRST)

  const D3 := Session([ROW1], 3, map[T := ENDED])
  const D4 := Session([ROW1], 3, map[T := ENDED, U := NEXT])
  const D5 := Session([ROW1], 3, map[T := ENDED, U := REPLIED])
  const D6 := Session([ROW1], 3, map[T := RERUN, U := REPLIED])
  const D7 := Session([ROW1], 3, map[T := RETOLD, U := REPLIED])
  const D8 := Session([ROW1, ROW3], 4, map[T := RETOLD, U := REPLIED])

  const BEFORE := [RUN[0], RUN[1], Finish(T, None, 2), Begin(U, "b", "u", {T}), Produce(U, [REPLY])]
  const AFTER := [Begin(T, "a", "u", {}), Produce(T, FIRST), Write(T, 0, 1, [3])]

  lemma NothingOf(u: Turn)
    ensures Written([ROW1], u) == [] && !HasKey([ROW1], End(u)) && StoredTo([ROW1], u, 0)
  {
    WrittenNone([ROW1], u);
  }

  lemma ReplyScans()
    ensures Scan([REPLY]) == Some([]) && UniqueCalls([REPLY]) && CallsMade([REPLY]) == {}
  {
    assert [REPLY][..0] == [];
    assert CallIds([]) == [];
  }

  lemma Finishes()
    ensures Leads(S2, BEFORE[2], D3)
  {
    assert S2.runs[T := ENDED] == D3.runs;
  }

  lemma Relays()
    ensures Leads(D3, BEFORE[3], D4)
  {
    Rows();
    NothingOf(U);
    assert Begun(D3, U, "b", "u", {T}) == NEXT;
    assert D3.runs[U := NEXT] == D4.runs;
  }

  lemma Replies()
    ensures Leads(D4, BEFORE[4], D5)
  {
    ReplyScans();
    assert D4.runs[U] == NEXT && Signed(REPLY, NEXT);
    assert [] + [REPLY] == [REPLY] && {} + CallsMade([REPLY]) == {};
    assert Apply(D4, BEFORE[4]).runs[U] == REPLIED;
    assert D4.runs[U := REPLIED] == D5.runs;
  }

  lemma RunsAgain()
    ensures Leads(D5, AFTER[0], D6)
  {
    Rows();
    assert Begun(D5, T, "a", "u", {}) == RERUN;
    assert D5.runs[T := RERUN] == D6.runs;
  }

  lemma Retells()
    ensures Leads(D6, AFTER[1], D7)
  {
    FirstScans();
    assert D6.runs[T] == RERUN && Signed(FIRST[0], RERUN);
    assert [] + FIRST == FIRST && {} + CallsMade(FIRST) == {};
    assert Apply(D6, AFTER[1]).runs[T] == RETOLD;
    assert D6.runs[T := RETOLD] == D7.runs;
  }

  lemma StoresIt()
    ensures Leads(D7, AFTER[2], D8)
  {
    FirstScans();
    NothingOf(T);
    assert FIRST[..1] == FIRST && FIRST[0..1] == FIRST;
    WritesAll([ROW1], T, 0, FIRST, [3]);
    assert [ROW1] + Fresh(T, 0, FIRST, [3]) == [ROW1, ROW3];
  }

  lemma RunsStart()
    ensures Reaches(D3, BEFORE[3..], D5)
  {
    assert BEFORE[5..] == [];
    Replies();
    Onward(BEFORE, 4, D4, D5, D5);
    Relays();
    Onward(BEFORE, 3, D3, D4, D5);
  }

  lemma RunsOn()
    ensures Reaches(S2, BEFORE[2..], D5)
  {
    RunsStart();
    Finishes();
    Onward(BEFORE, 2, S2, D3, D5);
  }

  lemma RunsBefore()
    ensures Reaches(EMPTY, BEFORE, D5)
  {
    RunsOn();
    Asks();
    Onward(BEFORE, 1, S1, S2, D5);
    Onward(BEFORE, 0, EMPTY, S1, D5);
    assert BEFORE[0..] == BEFORE;
  }

  lemma RunsEnd()
    ensures Reaches(D6, AFTER[1..], D8)
  {
    assert AFTER[3..] == [];
    StoresIt();
    Onward(AFTER, 2, D7, D8, D8);
    Retells();
    Onward(AFTER, 1, D6, D7, D8);
  }

  lemma RunsAfter()
    ensures Reaches(D5, AFTER, D8)
  {
    RunsEnd();
    RunsAgain();
    Onward(AFTER, 0, D5, D6, D8);
    assert AFTER[0..] == AFTER;
  }

  // --- What the turn reads ---

  lemma NoEnds()
    ensures EndIds([ROW1]) == map[] && EndIds([ROW1, ROW3]) == map[]
  {
    assert [ROW1][..0] == [] && [ROW1, ROW3][..1] == [ROW1];
  }

  lemma BaseOfOne()
    ensures Base([ROW1], U, {T}, map[]) == [ROW1]
  {
    assert [ROW1][..0] == [];
    assert Base([], U, {T}, map[]) == [];
    assert Reads(ROW1, U, {T}, map[]);
  }

  lemma BaseBefore()
    ensures Ordered(BaseOf(D5, U)) == [ROW1]
  {
    NoEnds();
    BaseOfOne();
    assert BaseOf(D5, U) == [ROW1];
    assert Ordered([ROW1])[0] in multiset([ROW1]);
  }

  lemma BaseAfter()
    ensures Ordered(BaseOf(D8, U)) == [ROW1, ROW3]
  {
    NoEnds();
    BaseOfOne();
    var ms := [ROW1, ROW3];
    assert ms[..1] == [ROW1];
    assert BaseOf(D8, U) == ms;
    OnlyArrangement(ms, ms);
  }

  lemma OtherWritesNone(rows: seq<Entry>)
    requires rows == [ROW1] || rows == [ROW1, ROW3]
    ensures Written(rows, U) == []
  {
    WrittenNone(rows, U);
  }

  ghost predicate Reached(s: Session) { exists first, mid, es :: Reaches(EMPTY, first, mid) && Reaches(mid, es, s) }

  lemma BothReached()
    ensures Reached(D5) && Reached(D8)
  {
    RunsBefore();
    RunsAfter();
    assert Reaches(D5, [], D5);
  }

  /** The turn is in progress, and stored nothing of its reply; base is what it reads of the others, in order. */
  ghost predicate Replying(s: Session, base: seq<Entry>) {
    Reached(s) && Active(s, U) && s.runs[U] == REPLIED && Written(s.rows, U) == [] && Ordered(BaseOf(s, U)) == base
  }

  lemma ReadsAs(s: Session, base: seq<Entry>)
    requires Replying(s, base)
    ensures InOrder(s, U) && s.runs[U].told <= |s.runs[U].msgs| && ReadBy(s, U) == Msgs(base) + [REPLY]
  {
    var first, mid, es :| Reaches(EMPTY, first, mid) && Reaches(mid, es, s);
    RunKeeps(EMPTY, first, mid);
    RunKeeps(mid, es, s);
    assert InOrder(s, U);
    ReadInOrder(s, U);
    assert Held(REPLIED) == [REPLY];
  }

  lemma BothReply()
    ensures Replying(D5, [ROW1]) && Replying(D8, [ROW1, ROW3])
  {
    BothReached();
    OtherWritesNone([ROW1]);
    OtherWritesNone([ROW1, ROW3]);
    BaseBefore();
    BaseAfter();
  }

  lemma AskedReads(v: View, c: Calls)
    ensures Translate(v, c, [ASKED]) == [UserText("?")]
  {
    assert [ASKED][..0] == [];
    assert DisplayCalls(c.hidden, []) == [];
    assert Read(v, c, ASKED) == Words("?");
  }

  lemma ReplyIsOwn(v: View, c: Calls, ms: seq<Message>)
    requires v.self == "b"
    ensures Translate(v, c, ms) <= Translate(v, c, ms + [REPLY])
  {
    assert (ms + [REPLY])[..|ms|] == ms;
    assert Read(v, c, REPLY).Block?;
  }

  lemma AnswerIsOthers(v: View, c: Calls)
    requires v.self == "b"
    ensures Translate(v, c, [ASKED, FIRST[0]]) == [UserText("?" + "\n\n" + OtherTurn(v, FIRST[0]))]
  {
    AskedReads(v, c);
    assert [ASKED, FIRST[0]][..1] == [ASKED];
    assert Other(v, FIRST[0]);
    assert OtherTurn(v, FIRST[0]) != "";
  }

  lemma NotReadOn(v: View)
    requires v.self == "b"
    ensures !(Converted(v, [ASKED] + [REPLY]) <= Converted(v, [ASKED, FIRST[0]] + [REPLY]))
  {
    var c, d := CallsOf(v, [ASKED] + [REPLY]), CallsOf(v, [ASKED, FIRST[0]] + [REPLY]);
    AskedReads(v, c);
    ReplyIsOwn(v, c, [ASKED]);
    AnswerIsOthers(v, d);
    ReplyIsOwn(v, d, [ASKED, FIRST[0]]);
    assert Converted(v, [ASKED] + [REPLY])[0] == UserText("?");
    assert Converted(v, [ASKED, FIRST[0]] + [REPLY])[0] == UserText("?" + "\n\n" + OtherTurn(v, FIRST[0]));
  }

  lemma NotReadOnOf(v: View, before: seq<Message>, after: seq<Message>)
    requires v.self == "b" && before == Msgs([ROW1]) + [REPLY] && after == Msgs([ROW1, ROW3]) + [REPLY]
    ensures !(Converted(v, before) <= Converted(v, after))
  {
    assert before == [ASKED] + [REPLY];
    assert after == [ASKED, FIRST[0]] + [REPLY];
    NotReadOn(v);
  }

  lemma LostBetween(v: View, s: Session, last: Session)
    requires v.self == "b" && Replying(s, [ROW1]) && Replying(last, [ROW1, ROW3])
    ensures InOrder(s, U) && s.runs[U].told <= |s.runs[U].msgs| && last.runs[U].told <= |last.runs[U].msgs|
    ensures !(Converted(v, ReadBy(s, U)) <= Converted(v, ReadBy(last, U)))
  {
    ReadsAs(s, [ROW1]);
    ReadsAs(last, [ROW1, ROW3]);
    NotReadOnOf(v, ReadBy(s, U), ReadBy(last, U));
  }

  /** A run in which a turn's later call does not read on from its earlier one: the turn relayed to it, whose
      end was not written, is answered again, and what it now stores comes before the turn's own answer. */
  lemma PrefixLost(v: View)
    requires v.self == D5.runs[U].agent && v.user == D5.runs[U].user
    ensures Reaches(EMPTY, BEFORE, D5) && Reaches(D5, AFTER, D8) && Active(D5, U) && Active(D8, U) && InOrder(D5, U)
    ensures D5.runs[U].told <= |D5.runs[U].msgs| && D8.runs[U].told <= |D8.runs[U].msgs|
    ensures !(Converted(v, ReadBy(D5, U)) <= Converted(v, ReadBy(D8, U)))
  {
    RunsBefore();
    RunsAfter();
    BothReply();
    LostBetween(v, D5, D8);
  }

  // --- A turn ended by another goes on ---

  const W := Turn(3, "b")
  const ASKED3 := Entry(3, Human("r"), ASKED)
  const ROW2 := Entry(2, End(T), ASKED)
  const TOLD := IDLE.(msgs := FIRST)
  const ASKS := Run("b", "u", {}, [], [], {}, 0, false, false)
  const ROWS := [ROW1, ROW2, ASKED3]

  const E3 := Session([ROW1, ROW2], 3, map[T := IDLE])
  const E4 := Session(ROWS, 4, map[T := IDLE])
  const E5 := Session(ROWS, 4, map[T := IDLE, W := ASKS])
  const E6 := Session(ROWS, 4, map[T := TOLD, W := ASKS])

  const EARLY := [RUN[0], RUN[1], Drop(T, ASKED, 2), Event.Post(Human("r"), ASKED, 3), Begin(W, "b", "u", {}), Produce(T, FIRST)]

  lemma RowsOf(rows: seq<Entry>, u: Turn)
    requires rows == [ROW1, ROW2] || rows == ROWS
    ensures Written(rows, u) == [] && (HasKey(rows, End(u)) <==> u == T) && StoredTo(rows, u, 0)
    ensures !HasKey([ROW1, ROW2], Human("r"))
  {
    WrittenNone(rows, u);
    assert rows[1].key == End(T);
  }

  lemma EndsEarly()
    ensures Leads(S2, EARLY[2], E3)
  {
    Rows();
    NothingOf(T);
    assert AppendOne([ROW1], End(T), ASKED, 2) == [ROW1] + [ROW2];
    assert [ROW1] + [ROW2] == [ROW1, ROW2];
  }

  lemma AsksMore()
    ensures Leads(E3, EARLY[3], E4)
  {
    RowsOf([ROW1, ROW2], T);
    assert AppendOne([ROW1, ROW2], Human("r"), ASKED, 3) == [ROW1, ROW2] + [ASKED3];
    assert [ROW1, ROW2] + [ASKED3] == ROWS;
  }

  lemma OtherBegins()
    ensures Leads(E4, EARLY[4], E5)
  {
    RowsOf(ROWS, W);
    assert ROWS[2].id == 3 && ROWS[2].key.Writer() == None;
    assert Begun(E4, W, "b", "u", {}) == ASKS;
    assert E4.runs[W := ASKS] == E5.runs;
  }

  lemma GoesOnTelling()
    ensures Leads(E5, EARLY[5], E6)
  {
    FirstScans();
    assert E5.runs[T] == IDLE && Signed(FIRST[0], IDLE);
    assert [] + FIRST == FIRST && {} + CallsMade(FIRST) == {};
    assert Apply(E5, EARLY[5]).runs[T] == TOLD;
    assert E5.runs[T := TOLD] == E6.runs;
  }

  lemma EarlyEnds()
    ensures Reaches(E3, EARLY[3..], E6)
  {
    assert EARLY[6..] == [];
    GoesOnTelling();
    Onward(EARLY, 5, E5, E6, E6);
    OtherBegins();
    Onward(EARLY, 4, E4, E5, E6);
    AsksMore();
    Onward(EARLY, 3, E3, E4, E6);
  }

  lemma EarlyGoes()
    ensures Reaches(S2, EARLY[2..], E6)
  {
    EarlyEnds();
    EndsEarly();
    Onward(EARLY, 2, S2, E3, E6);
  }

  lemma EarlyRuns()
    ensures Reaches(EMPTY, EARLY, E6)
  {
    EarlyGoes();
    Asks();
    Onward(EARLY, 1, S1, S2, E6);
    Onward(EARLY, 0, EMPTY, S1, E6);
    assert EARLY[0..] == EARLY;
  }

  lemma WritesOn()
    ensures Enabled(E6, Write(T, 0, 1, [4])) && Disturbs(E6, Write(T, 0, 1, [4]), W)
  {
    FirstScans();
    RowsOf(ROWS, T);
    assert FIRST[..1] == FIRST;
    assert ROWS[..2] == [ROW1, ROW2] && [ROW1, ROW2][..1] == [ROW1] && [ROW1][..0] == [];
    assert EndIds([ROW1, ROW2]) == EndIds([ROW1])[T := 2];
    assert EndIds(ROWS) == EndIds([ROW1, ROW2]);
  }

  /** A run in which what a turn in progress reads changes under it: a turn ended by another, as when the relay
      to it was given up though it came through, goes on and stores its answer. */
  lemma ReadHalfWritten()
    ensures Reaches(EMPTY, EARLY, E6) && Active(E6, W) && Enabled(E6, Write(T, 0, 1, [4]))
    ensures var last := Apply(E6, Write(T, 0, 1, [4])); W in last.runs && BaseOf(last, W) != BaseOf(E6, W)
  {
    EarlyRuns();
    WritesOn();
    RunKeeps(EMPTY, EARLY, E6);
    BaseStays(E6, Write(T, 0, 1, [4]), W);
  }
}
