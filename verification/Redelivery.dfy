/** A message answered again, its first turn's end not written (workflow/participant.go): what the second
    turn reads is the first one's messages. */
module Redelivery {
  import opened Text
  import opened Keys
  import opened Messages
  import opened Order
  import opened Scope
  import opened Session
  import opened Convert
  import opened Reading
  import opened Conversation
  import opened Answers

  const ASKED := Message(User, Plain("?"), "u", "", "", Kind.Ordinary, [], None, "", None)

  function Says(text: Content, calls: seq<ToolCall>): Message { Message(Assistant, text, "u", "a", "", Kind.Ordinary, calls, None, "", None) }

  const CALL := Says(Absent, [ToolCall("y", "f", "")])
  const RESULT := Message(Tool, Absent, "", "", "", Kind.Ordinary, [], Some(ToolResult("y", "", false)), "", None)
  const FIRST := [Says(Plain("!"), [])]
  const SECOND := [CALL, RESULT]
  const T := Turn(1, "a")
  const ROW1 := Entry(1, Human("q"), ASKED)
  const STORED := [Entry(2, Produced(T, 0), FIRST[0])]

  const IDLE := Run("a", "u", {}, [], [], {}, 0, false, false)
  const SAID := IDLE.(msgs := FIRST)
  const OVER := SAID.(over := true)
  const AGAIN := Run("a", "u", {}, FIRST, [], {}, 0, false, true)
  const MORE := AGAIN.(msgs := SECOND, made := {"y"})

  const S1 := Session([ROW1], 2, map[])
  const S2 := Session([ROW1], 2, map[T := IDLE])
  const S3 := Session([ROW1], 2, map[T := SAID])
  const S4 := Session([ROW1] + STORED, 3, map[T := SAID])
  const S5 := Session([ROW1] + STORED, 4, map[T := OVER])
  const S6 := Session([ROW1] + STORED, 4, map[T := AGAIN])
  const LAST := Session([ROW1] + STORED, 4, map[T := MORE])

  const RUN := [
    Event.Post(Human("q"), ASKED, 1),
    Begin(T, "a", "u", {}),
    Produce(T, FIRST),
    Write(T, 0, 1, [2]),
    Finish(T, None, 3),
    Begin(T, "a", "u", {}),
    Produce(T, SECOND)]

  lemma FirstScans()
    ensures Scan(FIRST) == Some([]) && UniqueCalls(FIRST) && CallsMade(FIRST) == {}
  {
    assert FIRST[..0] == [];
    assert CallIds([]) == [];
  }

  lemma SecondScans()
    ensures Scan(SECOND) == Some([]) && Scan(SECOND[..1]) == Some(["y"])
  {
    var one := SECOND[..1];
    assert one[..0] == [] && one == [CALL];
    assert CallIds(CALL.calls) == ["y"];
    assert Scan(one) == Some(["y"]);
    assert ["y"][1..] == [];
  }

  lemma SecondCalls()
    ensures UniqueCalls(SECOND) && CallsMade(SECOND) == {"y"}
  {
    assert SECOND[0].calls[0].id == "y";
    assert MadeIn(SECOND, "y");
  }

  lemma Rows()
    ensures Written([ROW1], T) == [] && AnchorIn([ROW1], 1) && !HasKey([ROW1], End(T))
    ensures Written([ROW1] + STORED, T) == STORED && AnchorIn([ROW1] + STORED, 1) && !HasKey([ROW1] + STORED, End(T))
    ensures StoredTo([ROW1], T, 0)
  {
    WrittenNone([ROW1], T);
    WrittenAppended([ROW1], STORED, T);
    WrittenBy(STORED, T, T);
    assert [ROW1][0] == ROW1 && ([ROW1] + STORED)[0] == ROW1;
  }

  lemma Asks()
    ensures Leads(EMPTY, RUN[0], S1) && Leads(S1, RUN[1], S2)
  {
    Rows();
    assert Begun(S1, T, "a", "u", {}) == IDLE;
    assert S1.runs[T := IDLE] == S2.runs;
  }

  lemma MayTellFirst()
    ensures Enabled(S2, RUN[2])
  {
    FirstScans();
    assert S2.runs[T] == IDLE && Signed(FIRST[0], IDLE);
  }

  lemma Tells()
    ensures Leads(S2, RUN[2], S3)
  {
    MayTellFirst();
    FirstScans();
    assert [] + FIRST == FIRST && {} + CallsMade(FIRST) == {};
    assert Apply(S2, RUN[2]).runs[T] == SAID;
    assert S2.runs[T := SAID] == S3.runs;
  }

  lemma MayStore()
    ensures Enabled(S3, RUN[3])
  {
    FirstScans();
    Rows();
    assert FIRST[..1] == FIRST;
  }

  lemma Stores()
    ensures Leads(S3, RUN[3], S4)
  {
    MayStore();
    Rows();
    assert FIRST[0..1] == FIRST;
    WritesAll([ROW1], T, 0, FIRST, [2]);
    assert Fresh(T, 0, FIRST, [2]) == STORED;
  }

  lemma EndsUnwritten()
    ensures Leads(S4, RUN[4], S5)
  {
    assert S4.runs[T := OVER] == S5.runs;
  }

  lemma BeginsAgain()
    ensures Leads(S5, RUN[5], S6)
  {
    Rows();
    assert Msgs(STORED) == FIRST;
    assert Begun(S5, T, "a", "u", {}) == AGAIN;
    assert S5.runs[T := AGAIN] == S6.runs;
  }

  lemma MayTell()
    ensures Enabled(S6, RUN[6])
  {
    SecondScans();
    SecondCalls();
    assert S6.runs[T] == AGAIN;
    assert Signed(CALL, AGAIN) && Signed(RESULT, AGAIN);
  }

  lemma TellsMore()
    ensures Leads(S6, RUN[6], LAST)
  {
    MayTell();
    SecondCalls();
    assert [] + SECOND == SECOND && {} + CallsMade(SECOND) == {"y"};
    assert Apply(S6, RUN[6]).runs[T] == MORE;
    assert S6.runs[T := MORE] == LAST.runs;
  }

  lemma RunEnds()
    ensures Reaches(S4, RUN[4..], LAST)
  {
    assert RUN[7..] == [];
    TellsMore();
    Onward(RUN, 6, S6, LAST, LAST);
    BeginsAgain();
    Onward(RUN, 5, S5, S6, LAST);
    EndsUnwritten();
    Onward(RUN, 4, S4, S5, LAST);
  }

  lemma RunGoes()
    ensures Reaches(S2, RUN[2..], LAST)
  {
    RunEnds();
    Stores();
    Onward(RUN, 3, S3, S4, LAST);
    Tells();
    Onward(RUN, 2, S2, S3, LAST);
  }

  lemma Runs()
    ensures Reaches(EMPTY, RUN, LAST)
  {
    RunGoes();
    Asks();
    Onward(RUN, 1, S1, S2, LAST);
    Onward(RUN, 0, EMPTY, S1, LAST);
    assert RUN[0..] == RUN;
  }

  /** A run in which a turn answered again does not read its own messages last, and its model reads a
      result without its call: the first turn's answer stands where its own call was. */
  lemma AnsweredAgain(v: View)
    ensures Reaches(EMPTY, RUN, LAST) && Active(LAST, T) && !OwnLast(LAST, T)
    ensures LAST.runs[T].told <= |LAST.runs[T].msgs| && !ResultsCalled(Converted(v, ReadBy(LAST, T)))
  {
    Runs();
    OwnMessagesLast(RUN, LAST, T);
    assert FIRST[0] != SECOND[0];
    RunKeeps(EMPTY, RUN, LAST);
    SecondScans();
    NotWholeNotAnswered(LAST, T, v);
  }
}
