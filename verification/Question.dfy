/** What a conversation ends on before the turn's own messages (conversation/order.go): the message it
    answers, or the answer of a turn relayed to it. */
module Question {
  import opened Text
  import opened Keys
  import opened Messages
  import opened Sorting
  import opened Order
  import opened Scope
  import opened Session
  import opened Reading
  import opened Conversation

  /** The message each turn answers is stored, no turn wrote it. */
  ghost predicate Anchored(s: Session) { forall u :: u in s.runs ==> AnchorIn(s.rows, u.anchor) }

  lemma AnchorStays(rows: seq<Entry>, more: seq<Entry>, id: int)
    requires rows <= more && AnchorIn(rows, id)
    ensures AnchorIn(more, id)
  {
    var i :| 0 <= i < |rows| && rows[i].id == id && rows[i].key.Writer() == None;
    assert more[i] == rows[i];
  }

  lemma AnchoredKept(s: Session, e: Event)
    requires Anchored(s) && Enabled(s, e)
    ensures Anchored(Apply(s, e))
  {
    RowsGrow(s, e);
    forall u | u in Apply(s, e).runs ensures AnchorIn(Apply(s, e).rows, u.anchor) {
      if u in s.runs { AnchorStays(s.rows, Apply(s, e).rows, u.anchor); }
    }
  }

  lemma {:induction false} RunAnchored(s: Session, es: seq<Event>, last: Session)
    requires Anchored(s) && Reaches(s, es, last)
    ensures Anchored(last)
    decreases |es|
  {
    if es != [] {
      AnchoredKept(s, es[0]);
      RunAnchored(Apply(s, es[0]), es[1..], last);
    }
  }

  /** What ranks at or after the message a turn answers, of what it reads of the others: that message,
      or a turn that answered it before. */
  lemma AfterTheQuestion(s: Session, t: Turn, x: Entry)
    requires RowsInv(s) && t in s.runs && x in BaseOf(s, t)
    requires RankLe(Rank(t.anchor, false, t.anchor, t.anchor), RankIn(x, BaseOf(s, t)))
    ensures x.id == t.anchor || (x.key.Writer().Some? && x.key.Writer().value in s.runs[t].earlier)
  {
    LoadedMeans(s.rows, t, s.runs[t].earlier, EndIds(s.rows), x);
    if x.key.Writer().Some? {
      var u := x.key.Writer().value;
      if u !in s.runs[t].earlier && u.participant != t.participant { EndedIsBefore(s, u, t.anchor); }
    }
  }

  /** The last of what a turn reads of the others ranks at or after the message it answers. */
  lemma LastRanksAfter(ms: seq<Entry>, m: Entry)
    requires m in ms
    ensures ms != [] && Ordered(ms)[|ms| - 1] in ms && RankLe(RankIn(m, ms), RankIn(Ordered(ms)[|ms| - 1], ms))
  {
    var out := Ordered(ms);
    assert m in multiset(ms);
    assert m in multiset(out);
    var k :| 0 <= k < |out| && out[k] == m;
    OrderedIsSorted(ms);
    assert out[|out| - 1] in multiset(ms);
    if k < |out| - 1 { assert RankLe(RankIn(out[k], ms), RankIn(out[|out| - 1], ms)); }
  }

  lemma QuestionIsRead(s: Session, t: Turn) returns (m: Entry)
    requires t in s.runs && AnchorIn(s.rows, t.anchor)
    ensures m in BaseOf(s, t) && m.id == t.anchor && m.key.Writer() == None
  {
    var i :| 0 <= i < |s.rows| && s.rows[i].id == t.anchor && s.rows[i].key.Writer() == None;
    m := s.rows[i];
    LoadedMeans(s.rows, t, s.runs[t].earlier, EndIds(s.rows), m);
  }

  ghost predicate OfQuestion(x: Entry, t: Turn, earlier: set<Turn>) {
    x.id == t.anchor || (x.key.Writer().Some? && x.key.Writer().value in earlier)
  }

  lemma RowUnread(s: Session, t: Turn, x: Entry)
    requires t in s.runs && x in BaseOf(s, t)
    ensures x in s.rows && !x.key.End?
  {
    LoadedMeans(s.rows, t, s.runs[t].earlier, EndIds(s.rows), x);
  }

  /** A message stored of a turn relayed to it ranks after the message a turn answers. */
  lemma RelayedIsAfter(s: Session, t: Turn, u: Turn, m: Entry)
    requires RowsInv(s) && t in s.runs && u in s.runs[t].earlier && Written(s.rows, u) != []
    requires m in BaseOf(s, t) && m.id == t.anchor && m.key.Writer() == None
    ensures Ordered(BaseOf(s, t))[|BaseOf(s, t)| - 1] != m
  {
    var y := Written(s.rows, u)[0];
    EarlierIsRead(s, t, u, y);
    assert y in multiset(BaseOf(s, t));
    LastRanksAfter(BaseOf(s, t), y);
  }

  lemma QuestionIsOne(s: Session, t: Turn, m: Entry, x: Entry)
    requires RowsInv(s) && t in s.runs && m in BaseOf(s, t) && x in BaseOf(s, t) && m.id == x.id
    ensures m == x
  {
    RowUnread(s, t, m);
    RowUnread(s, t, x);
  }

  lemma OfRelayed(s: Session, t: Turn, x: Entry)
    requires t in s.runs && x in BaseOf(s, t) && x.key.Writer().Some?
    ensures Written(s.rows, x.key.Writer().value) != []
  {
    RowUnread(s, t, x);
    WrittenMeans(s.rows, x.key.Writer().value, x);
  }

  /** In every run: before the turn's own messages, what it reads ends on the message it answers, or on
      the answer of a turn relayed to it; on the message itself if and only if nothing is stored of any
      turn relayed to it. */
  lemma EndsOnItsQuestion(es: seq<Event>, last: Session, t: Turn)
    requires Reaches(EMPTY, es, last) && t in last.runs
    ensures BaseOf(last, t) != [] && OfQuestion(Ordered(BaseOf(last, t))[|BaseOf(last, t)| - 1], t, last.runs[t].earlier)
    ensures Ordered(BaseOf(last, t))[|BaseOf(last, t)| - 1].id == t.anchor
       <==> forall u :: u in last.runs[t].earlier ==> Written(last.rows, u) == []
  {
    RunKeeps(EMPTY, es, last);
    RunAnchored(EMPTY, es, last);
    EndsOn(last, t);
  }

  lemma EndsOn(s: Session, t: Turn)
    requires RowsInv(s) && t in s.runs && AnchorIn(s.rows, t.anchor)
    ensures BaseOf(s, t) != [] && OfQuestion(Ordered(BaseOf(s, t))[|BaseOf(s, t)| - 1], t, s.runs[t].earlier)
    ensures Ordered(BaseOf(s, t))[|BaseOf(s, t)| - 1].id == t.anchor <==> forall u :: u in s.runs[t].earlier ==> Written(s.rows, u) == []
  {
    var m := QuestionIsRead(s, t);
    LastRanksAfter(BaseOf(s, t), m);
    var x := Ordered(BaseOf(s, t))[|BaseOf(s, t)| - 1];
    AfterTheQuestion(s, t, x);
    if x.id == t.anchor {
      QuestionIsOne(s, t, m, x);
      forall u | u in s.runs[t].earlier ensures Written(s.rows, u) == [] {
        if Written(s.rows, u) != [] { RelayedIsAfter(s, t, u, m); }
      }
    } else {
      OfRelayed(s, t, x);
    }
  }

  // --- A conversation that ends on a relayed answer ---

  const ASKED := Message(User, Plain("?"), "u", "", "", Kind.Ordinary, [], None, "", None)
  const ANSWER := Message(Assistant, Plain("!"), "u", "a", "", Kind.Ordinary, [], None, "", None)
  const A := Turn(1, "a")
  const B := Turn(1, "b")
  const ROW1 := Entry(1, Human("q"), ASKED)
  const ROW2 := Entry(2, Produced(A, 0), ANSWER)
  const ROW3 := Entry(3, End(A), ASKED)

  const IDLE := Run("a", "u", {}, [], [], {}, 0, false, false)
  const SAID := Run("a", "u", {}, [], [ANSWER], {}, 0, false, false)
  const OVER := Run("a", "u", {}, [], [ANSWER], {}, 0, true, false)
  const NEXT := Run("b", "u", {A}, [], [], {}, 0, false, false)

  const S1 := Session([ROW1], 2, map[])
  const S2 := Session([ROW1], 2, map[A := IDLE])
  const S3 := Session([ROW1], 2, map[A := SAID])
  const S4 := Session([ROW1, ROW2], 3, map[A := SAID])
  const S5 := Session([ROW1, ROW2, ROW3], 4, map[A := OVER])
  const RELAYED := Session([ROW1, ROW2, ROW3], 4, map[A := OVER, B := NEXT])

  const RELAY := [
    Event.Post(Human("q"), ASKED, 1),
    Begin(A, "a", "u", {}),
    Produce(A, [ANSWER]),
    Write(A, 0, 1, [2]),
    Finish(A, Some(ASKED), 3),
    Begin(B, "b", "u", {A})]

  lemma Rows(rows: seq<Entry>, t: Turn)
    requires rows == [ROW1] || rows == [ROW1, ROW2] || rows == [ROW1, ROW2, ROW3]
    ensures Written(rows, t) == if t == A && |rows| > 1 then [ROW2] else []
    ensures AnchorIn(rows, 1) && (HasKey(rows, End(t)) <==> t == A && |rows| > 2)
  {
    assert rows[0] == ROW1;
    WrittenNone([ROW1], t);
    WrittenAppended([ROW1], [ROW2], t);
    WrittenBy([ROW2], A, t);
    assert [ROW1] + [ROW2] == [ROW1, ROW2];
    if |rows| > 2 {
      OtherRow([ROW1, ROW2], ROW3, t);
      assert [ROW1, ROW2] + [ROW3] == rows;
      assert rows[2].key == End(A);
    }
  }

  lemma AnswerScans()
    ensures Scan([ANSWER]) == Some([]) && UniqueCalls([ANSWER]) && CallsMade([ANSWER]) == {}
  {
    assert [ANSWER][..0] == [];
    assert CallIds([]) == [];
  }

  lemma Asks()
    ensures Leads(EMPTY, RELAY[0], S1) && Leads(S1, RELAY[1], S2)
  {
    Rows([ROW1], A);
    assert Apply(S1, RELAY[1]).runs == S2.runs;
  }

  lemma MaySay()
    ensures Enabled(S2, RELAY[2])
  {
    AnswerScans();
    assert S2.runs[A] == IDLE && Signed(ANSWER, IDLE);
  }

  lemma Says()
    ensures Leads(S2, RELAY[2], S3)
  {
    MaySay();
    AnswerScans();
    assert [] + [ANSWER] == [ANSWER] && {} + CallsMade([ANSWER]) == {};
    assert Apply(S2, RELAY[2]).runs[A] == SAID;
    assert S2.runs[A := SAID] == S3.runs;
  }

  lemma Stores()
    ensures Leads(S3, RELAY[3], S4)
  {
    AnswerScans();
    Rows([ROW1], A);
    var msgs, ids := [ANSWER], [2];
    assert msgs[..1] == msgs && msgs[0..1] == msgs && msgs[1..] == [] && ids[1..] == [];
    assert !HasKey([ROW1], Produced(A, 0));
    assert AppendOne([ROW1], Produced(A, 0), ANSWER, 2) == [ROW1] + [ROW2];
    assert [ROW1] + [ROW2] == [ROW1, ROW2];
    assert AppendAll([ROW1, ROW2], A, 1, [], []) == [ROW1, ROW2];
    assert AppendAll([ROW1], A, 0, msgs, ids) == [ROW1, ROW2];
  }

  lemma Ends()
    ensures Leads(S4, RELAY[4], S5)
  {
    Rows([ROW1, ROW2], A);
    assert AppendOne([ROW1, ROW2], End(A), ASKED, 3) == [ROW1, ROW2] + [ROW3];
    assert S4.runs[A := SAID.(over := true)] == S5.runs;
  }

  lemma MayRelay()
    ensures Enabled(S5, RELAY[5])
  {
    Rows([ROW1, ROW2, ROW3], B);
    assert S5.runs[A] == OVER;
  }

  lemma RelaysIt()
    ensures Leads(S5, RELAY[5], RELAYED)
  {
    MayRelay();
    Rows([ROW1, ROW2, ROW3], B);
    assert Begun(S5, B, "b", "u", {A}) == NEXT;
    assert S5.runs[B := NEXT] == RELAYED.runs;
  }

  lemma RelayEnds()
    ensures Reaches(S3, RELAY[3..], RELAYED)
  {
    assert RELAY[6..] == [];
    RelaysIt();
    Onward(RELAY, 5, S5, RELAYED, RELAYED);
    Ends();
    Onward(RELAY, 4, S4, S5, RELAYED);
    Stores();
    Onward(RELAY, 3, S3, S4, RELAYED);
  }

  lemma RelayGoes()
    ensures Reaches(S2, RELAY[2..], RELAYED)
  {
    RelayEnds();
    Says();
    Onward(RELAY, 2, S2, S3, RELAYED);
  }

  lemma RelayRuns()
    ensures Reaches(EMPTY, RELAY, RELAYED)
  {
    RelayGoes();
    Asks();
    Onward(RELAY, 1, S1, S2, RELAYED);
    Onward(RELAY, 0, EMPTY, S1, RELAYED);
    assert RELAY[0..] == RELAY;
  }

  /** A run in which the conversation ends on another participant's answer. */
  lemma EndsOnARelayedAnswer()
    ensures Reaches(EMPTY, RELAY, RELAYED) && Active(RELAYED, B)
    ensures BaseOf(RELAYED, B) != [] && Ordered(BaseOf(RELAYED, B))[|BaseOf(RELAYED, B)| - 1].id != B.anchor
  {
    RelayRuns();
    EndsOnItsQuestion(RELAY, RELAYED, B);
    Rows([ROW1, ROW2, ROW3], A);
    assert A in RELAYED.runs[B].earlier;
  }
}
