/** What a turn reads of its session (store/message.go), and the rows it is read from (store/postgres.go). */
module Scope {
  import opened Text
  import opened Keys
  import opened Messages
  import opened Order

  // --- On the stored keys ---

  /** A turn's scope: the message it answers, its participant, the turns it reads whatever their state. */
  datatype TurnScope = TurnScope(upTo: int, participant: string, turns: seq<string>)

  function ScopeOf(turnKey: string, earlier: seq<string>): TurnScope {
    match ParseTurn(turnKey)
    case Some(t) => TurnScope(t.anchor, t.participant, earlier + [turnKey])
    case None => TurnScope(0, "", earlier + [turnKey])
  }

  /** Whether a turn of scope reads the message stored as id under key, ends being each turn's end. */
  predicate TurnReads(id: int, key: string, scope: TurnScope, ends: map<string, int>) {
    var turn := TurnOf(key);
    if turn.None? then id <= scope.upTo
    else if IsTurnEnd(key) then false
    else if turn.value in scope.turns then true
    else
      var parsed := ParseTurn(turn.value);
      if parsed.None? || parsed.value.anchor > scope.upTo then false
      else if parsed.value.participant == scope.participant then true
      else turn.value in ends && ends[turn.value] <= scope.upTo
  }

  // --- On what the keys say ---

  function KeyOf(t: Turn): string { TurnKey(t.anchor, t.participant) }

  /** What the turn t, which reads earlier, reads of the turn u: all of it, or nothing. */
  predicate ReadsTurn(u: Turn, t: Turn, earlier: set<Turn>, ends: map<Turn, int>) {
    u == t || u in earlier ||
      (u.anchor <= t.anchor && (u.participant == t.participant || (u in ends && ends[u] <= t.anchor)))
  }

  predicate Reads(e: Entry, t: Turn, earlier: set<Turn>, ends: map<Turn, int>) {
    match e.key.Writer()
    case None => e.id <= t.anchor
    case Some(u) => !e.key.End? && ReadsTurn(u, t, earlier, ends)
  }

  /** The same of the stored strings: a scope and ends that name turns by their keys. */
  ghost predicate Named(t: Turn, earlier: set<Turn>, ends: map<Turn, int>, keys: seq<string>, endIDs: map<string, int>) {
    && ValidTurn(t) && (forall u :: u in earlier ==> ValidTurn(u)) && (forall u :: u in ends ==> ValidTurn(u))
    && (forall k :: k in keys <==> exists u :: u in earlier && k == KeyOf(u))
    && (forall k :: k in endIDs ==> exists u :: u in ends && k == KeyOf(u))
    && (forall u :: u in ends ==> KeyOf(u) in endIDs && endIDs[KeyOf(u)] == ends[u])
  }

  lemma SameKeySameTurn(u: Turn, w: Turn)
    requires KeyOf(u) == KeyOf(w)
    ensures u == w
  {
    TurnKeyInjective(u.anchor, u.participant, w.anchor, w.participant);
  }

  lemma NamedTurn(t: Turn, earlier: set<Turn>, ends: map<Turn, int>, keys: seq<string>, endIDs: map<string, int>, u: Turn)
    requires Named(t, earlier, ends, keys, endIDs)
    ensures KeyOf(u) in keys + [KeyOf(t)] <==> u in earlier || u == t
    ensures KeyOf(u) in endIDs <==> u in ends
    ensures u in ends ==> endIDs[KeyOf(u)] == ends[u]
  {
    assert KeyOf(u) in keys + [KeyOf(t)] <==> KeyOf(u) in keys || KeyOf(u) == KeyOf(t);
    if KeyOf(u) == KeyOf(t) { SameKeySameTurn(u, t); }
    if KeyOf(u) in keys {
      var w :| w in earlier && KeyOf(u) == KeyOf(w);
      SameKeySameTurn(u, w);
    }
    if KeyOf(u) in endIDs {
      var w :| w in ends && KeyOf(u) == KeyOf(w);
      SameKeySameTurn(u, w);
    }
  }

  lemma ScopeOfTurn(t: Turn, keys: seq<string>)
    requires ValidTurn(t)
    ensures ScopeOf(KeyOf(t), keys) == TurnScope(t.anchor, t.participant, keys + [KeyOf(t)])
  {
    ParseOfTurnKey(t.anchor, t.participant);
  }

  /** What the program decides from a row's stored key is what its writer decides. */
  lemma ReadsByKey(e: Entry, t: Turn, earlier: set<Turn>, ends: map<Turn, int>, keys: seq<string>, endIDs: map<string, int>)
    requires Named(t, earlier, ends, keys, endIDs) && ValidKey(e.key)
    ensures TurnReads(e.id, Encode(e.key), ScopeOf(KeyOf(t), keys), endIDs) <==> Reads(e, t, earlier, ends)
  {
    WriterOfEncoded(e.key);
    ScopeOfTurn(t, keys);
    if e.key.Produced? {
      NamedTurn(t, earlier, ends, keys, endIDs, e.key.turn);
      ByParts(e.id, Encode(e.key), TurnScope(t.anchor, t.participant, keys + [KeyOf(t)]), endIDs, KeyOf(e.key.turn), e.key.turn);
    }
  }

  /** TurnReads of a turn's message, its key taken apart. */
  lemma ByParts(id: int, key: string, scope: TurnScope, ends: map<string, int>, turn: string, u: Turn)
    requires TurnOf(key) == Some(turn) && !IsTurnEnd(key) && ParseTurn(turn) == Some(u)
    ensures TurnReads(id, key, scope, ends)
       <==> turn in scope.turns || (u.anchor <= scope.upTo && (u.participant == scope.participant || (turn in ends && ends[turn] <= scope.upTo)))
  {
  }

  // --- Loading ---

  /** The ID of each turn's end among rows, the last one when a turn had several. */
  function EndIds(rows: seq<Entry>): map<Turn, int> {
    if rows == [] then map[] else
    var n := |rows| - 1;
    if rows[n].key.End? then EndIds(rows[..n])[rows[n].key.turn := rows[n].id] else EndIds(rows[..n])
  }

  function Loaded(rows: seq<Entry>, t: Turn, earlier: set<Turn>, ends: map<Turn, int>): seq<Entry> {
    if rows == [] then [] else
    var n := |rows| - 1;
    Loaded(rows[..n], t, earlier, ends) + if Reads(rows[n], t, earlier, ends) then [rows[n]] else []
  }

  /** A turn's messages among rows, its end aside. */
  function Written(rows: seq<Entry>, t: Turn): seq<Entry> {
    if rows == [] then [] else
    var n := |rows| - 1;
    Written(rows[..n], t) + if rows[n].key.Produced? && rows[n].key.turn == t then [rows[n]] else []
  }

  /** What the turn reads besides itself. */
  function Base(rows: seq<Entry>, t: Turn, earlier: set<Turn>, ends: map<Turn, int>): seq<Entry> {
    if rows == [] then [] else
    var n := |rows| - 1;
    Base(rows[..n], t, earlier, ends) +
      if Reads(rows[n], t, earlier, ends) && rows[n].key.Writer() != Some(t) then [rows[n]] else []
  }

  /** The rows as the program reads them: one pass for the ends, one for the messages. */
  method LoadConversation(rows: seq<Entry>, t: Turn, earlier: set<Turn>) returns (messages: seq<Entry>)
    ensures messages == Loaded(rows, t, earlier, EndIds(rows))
  {
    var ends: map<Turn, int> := map[];
    for i := 0 to |rows|
      invariant ends == EndIds(rows[..i])
    {
      assert rows[..i + 1][..i] == rows[..i];
      if rows[i].key.End? {
        ends := ends[rows[i].key.turn := rows[i].id];
      }
    }
    assert rows[..|rows|] == rows;
    messages := [];
    for i := 0 to |rows|
      invariant messages == Loaded(rows[..i], t, earlier, ends)
    {
      assert rows[..i + 1][..i] == rows[..i];
      if !Reads(rows[i], t, earlier, ends) {
        continue;
      }
      messages := messages + [rows[i]];
    }
  }

  // --- What is loaded, turn by turn ---

  lemma {:induction false} LoadedMeans(rows: seq<Entry>, t: Turn, earlier: set<Turn>, ends: map<Turn, int>, e: Entry)
    ensures e in Loaded(rows, t, earlier, ends) <==> e in rows && Reads(e, t, earlier, ends)
    ensures e in Base(rows, t, earlier, ends) <==> e in rows && Reads(e, t, earlier, ends) && e.key.Writer() != Some(t)
  {
    if rows != [] {
      LoadedMeans(rows[..|rows| - 1], t, earlier, ends, e);
      assert rows == rows[..|rows| - 1] + [rows[|rows| - 1]];
    }
  }

  /** e is the last end of u among rows. */
  ghost predicate LastEnd(rows: seq<Entry>, u: Turn, id: int) {
    exists i :: 0 <= i < |rows| && rows[i].key == End(u) && rows[i].id == id && forall j :: i < j < |rows| ==> rows[j].key != End(u)
  }

  lemma {:induction false} EndIdsAre(rows: seq<Entry>, u: Turn)
    ensures u in EndIds(rows) ==> LastEnd(rows, u, EndIds(rows)[u])
    ensures u !in EndIds(rows) ==> forall i :: 0 <= i < |rows| ==> rows[i].key != End(u)
    ensures forall id :: LastEnd(rows, u, id) ==> u in EndIds(rows) && EndIds(rows)[u] == id
  {
    if rows != [] {
      var n := |rows| - 1;
      EndIdsAre(rows[..n], u);
      if rows[n].key == End(u) {
        assert LastEnd(rows, u, rows[n].id);
      } else if u in EndIds(rows[..n]) {
        var i :| 0 <= i < n && rows[..n][i].key == End(u) && rows[..n][i].id == EndIds(rows[..n])[u] && forall j :: i < j < n ==> rows[..n][j].key != End(u);
        assert rows[i].key == End(u);
        forall j | i < j < |rows| ensures rows[j].key != End(u) { if j < n { assert rows[..n][j] == rows[j]; } }
        assert LastEnd(rows, u, EndIds(rows)[u]);
      } else {
        forall i | 0 <= i < |rows| ensures rows[i].key != End(u) { if i < n { assert rows[..n][i] == rows[i]; } }
      }
    }
  }

  /** u is t, or relayed to it; or it answers t's message or one before, and is its participant's, or ended by then. */
  ghost predicate Allowed(rows: seq<Entry>, u: Turn, t: Turn, earlier: set<Turn>) {
    || u == t || u in earlier
    || (u.anchor <= t.anchor && (u.participant == t.participant || exists id :: LastEnd(rows, u, id) && id <= t.anchor))
  }

  /** What a turn is given to read, of what is stored: what no turn wrote, up to the message it answers; of turns, never
      an end; its own messages, and all of those relayed to it; of the turns that answer that message or one before it,
      its participant's own, and the others' whose last end is not past it. */
  lemma LoadedExactly(rows: seq<Entry>, t: Turn, earlier: set<Turn>, e: Entry)
    ensures !e.key.Produced? ==> (e in Loaded(rows, t, earlier, EndIds(rows)) <==> e in rows && !e.key.End? && e.id <= t.anchor)
    ensures e.key.Produced? ==> (e in Loaded(rows, t, earlier, EndIds(rows)) <==> e in rows && Allowed(rows, e.key.turn, t, earlier))
  {
    LoadedMeans(rows, t, earlier, EndIds(rows), e);
    if e.key.Produced? { EndIdsAre(rows, e.key.turn); }
  }

  lemma OfOne(ms: seq<Entry>, more: seq<Entry>, e: Entry, u: Turn)
    requires more == [] || more == [e]
    ensures Of(ms + more, u) == Of(ms, u) + if more != [] && e.key.Writer() == Some(u) then [e] else []
  {
    if more == [] { assert ms + more == ms; } else { Extended(ms, e, u); }
  }

  /** A turn is read whole or not at all, its end never. */
  lemma {:induction false} WholeOrNothing(rows: seq<Entry>, t: Turn, earlier: set<Turn>, ends: map<Turn, int>, u: Turn)
    ensures Of(Loaded(rows, t, earlier, ends), u) == if ReadsTurn(u, t, earlier, ends) then Written(rows, u) else []
  {
    if rows != [] {
      var n := |rows| - 1;
      WholeOrNothing(rows[..n], t, earlier, ends, u);
      var read := Reads(rows[n], t, earlier, ends);
      OfOne(Loaded(rows[..n], t, earlier, ends), if read then [rows[n]] else [], rows[n], u);
      assert Of(Loaded(rows, t, earlier, ends), u)
          == Of(Loaded(rows[..n], t, earlier, ends), u) + if read && rows[n].key.Writer() == Some(u) then [rows[n]] else [];
    }
  }

  lemma {:induction false} BaseWholeOrNothing(rows: seq<Entry>, t: Turn, earlier: set<Turn>, ends: map<Turn, int>, u: Turn)
    ensures Of(Base(rows, t, earlier, ends), u) == if u != t && ReadsTurn(u, t, earlier, ends) then Written(rows, u) else []
  {
    if rows != [] {
      var n := |rows| - 1;
      BaseWholeOrNothing(rows[..n], t, earlier, ends, u);
      var read := Reads(rows[n], t, earlier, ends) && rows[n].key.Writer() != Some(t);
      OfOne(Base(rows[..n], t, earlier, ends), if read then [rows[n]] else [], rows[n], u);
    }
  }

  /** What is loaded is the base and the turn's own messages. */
  lemma {:induction false} LoadedParts(rows: seq<Entry>, t: Turn, earlier: set<Turn>, ends: map<Turn, int>)
    ensures multiset(Loaded(rows, t, earlier, ends)) == multiset(Base(rows, t, earlier, ends)) + multiset(Written(rows, t))
  {
    if rows != [] {
      LoadedParts(rows[..|rows| - 1], t, earlier, ends);
    }
  }

  /** Rows the turn does not read, or writes itself, leave what it reads of the others. */
  lemma {:induction false} BaseKept(rows: seq<Entry>, more: seq<Entry>, t: Turn, earlier: set<Turn>, ends: map<Turn, int>)
    requires forall e :: e in more ==> !Reads(e, t, earlier, ends) || e.key.Writer() == Some(t)
    ensures Base(rows + more, t, earlier, ends) == Base(rows, t, earlier, ends)
  {
    if more == [] {
      assert rows + more == rows;
    } else {
      var n := |more| - 1;
      assert more[n] in more && forall e :: e in more[..n] ==> e in more;
      BaseKept(rows, more[..n], t, earlier, ends);
      assert (rows + more)[..|rows + more| - 1] == rows + more[..n];
    }
  }

  lemma {:induction false} BaseOfEnds(rows: seq<Entry>, t: Turn, earlier: set<Turn>, ends: map<Turn, int>, other: map<Turn, int>)
    requires forall u :: ReadsTurn(u, t, earlier, ends) <==> ReadsTurn(u, t, earlier, other)
    ensures Base(rows, t, earlier, ends) == Base(rows, t, earlier, other)
  {
    if rows != [] {
      BaseOfEnds(rows[..|rows| - 1], t, earlier, ends, other);
      assert Reads(rows[|rows| - 1], t, earlier, ends) <==> Reads(rows[|rows| - 1], t, earlier, other);
    }
  }
}
