/** What each call of a turn reads (activity/llm.go), over any run of the session. */
module Conversation {
  import opened Text
  import opened Keys
  import opened Messages
  import opened Sorting
  import opened Order
  import opened Scope
  import opened Session
  import opened Convert
  import opened Reading

  function KeysOf(entries: seq<Entry>): set<Key> { set i | 0 <= i < |entries| :: entries[i].key }

  /** The messages of the tail not found stored, the tail beginning at the turn's index start. */
  function Unstored(stored: set<Key>, t: Turn, start: nat, tail: seq<Message>): seq<Message> {
    if tail == [] then [] else
    var n := |tail| - 1;
    Unstored(stored, t, start, tail[..n]) + if Produced(t, start + n) in stored then [] else [tail[n]]
  }

  /** What a call reads: the rows its turn reads in their order, then the tail not stored. */
  function ConversationOf(rows: seq<Entry>, t: Turn, earlier: set<Turn>, tail: seq<Message>, start: nat): seq<Message> {
    var ordered := Ordered(Loaded(rows, t, earlier, EndIds(rows)));
    Msgs(ordered) + Unstored(KeysOf(ordered), t, start, tail)
  }

  /** The program's way to it. */
  method Conversation(rows: seq<Entry>, t: Turn, earlier: set<Turn>, tail: seq<Message>, start: nat) returns (messages: seq<Message>)
    requires UniqueIds(rows)
    ensures messages == ConversationOf(rows, t, earlier, tail, start)
  {
    var loaded := LoadConversation(rows, t, earlier);
    LoadedUnique(rows, t, earlier, EndIds(rows));
    var ordered := Order.Order(loaded);
    var stored: set<Key>;
    messages, stored := Unwrap(ordered);
    var rest := Rest(stored, t, start, tail);
    messages := messages + rest;
  }

  /** The messages of the rows, and the keys they are stored under. */
  method Unwrap(ordered: seq<Entry>) returns (messages: seq<Message>, stored: set<Key>)
    ensures messages == Msgs(ordered) && stored == KeysOf(ordered)
  {
    stored := {};
    messages := [];
    for i := 0 to |ordered|
      invariant messages == Msgs(ordered[..i]) && stored == KeysOf(ordered[..i])
    {
      stored := stored + {ordered[i].key};
      messages := messages + [ordered[i].msg];
    }
    assert ordered[..|ordered|] == ordered;
  }

  /** What of the tail is not stored yet. */
  method Rest(stored: set<Key>, t: Turn, start: nat, tail: seq<Message>) returns (rest: seq<Message>)
    ensures rest == Unstored(stored, t, start, tail)
  {
    rest := [];
    for i := 0 to |tail|
      invariant rest == Unstored(stored, t, start, tail[..i])
    {
      assert tail[..i + 1][..i] == tail[..i];
      if Produced(t, start + i) !in stored {
        rest := rest + [tail[i]];
      }
    }
    assert tail[..|tail|] == tail;
  }

  lemma {:induction false} LoadedUnique(rows: seq<Entry>, t: Turn, earlier: set<Turn>, ends: map<Turn, int>)
    requires UniqueIds(rows)
    ensures UniqueIds(Loaded(rows, t, earlier, ends))
  {
    if rows != [] {
      var n := |rows| - 1;
      var l := Loaded(rows[..n], t, earlier, ends);
      LoadedUnique(rows[..n], t, earlier, ends);
      forall i | 0 <= i < |l| ensures l[i].id != rows[n].id { LoadedMeans(rows[..n], t, earlier, ends, l[i]); }
    }
  }

  // --- The turn's own messages come last ---

  /** What the turn t reads of the others. */
  ghost function BaseOf(s: Session, t: Turn): seq<Entry>
    requires t in s.runs
  {
    Base(s.rows, t, s.runs[t].earlier, EndIds(s.rows))
  }

  ghost function LoadedOf(s: Session, t: Turn): seq<Entry>
    requires t in s.runs
  {
    Loaded(s.rows, t, s.runs[t].earlier, EndIds(s.rows))
  }

  /** What the turn's call reads now: what it could not confirm stored is sent with the call. */
  ghost function ReadBy(s: Session, t: Turn): seq<Message>
    requires t in s.runs && s.runs[t].told <= |s.runs[t].msgs|
  {
    ConversationOf(s.rows, t, s.runs[t].earlier, s.runs[t].msgs[s.runs[t].told..], s.runs[t].told)
  }

  lemma {:induction false} EndIdsMeans(rows: seq<Entry>, u: Turn)
    ensures u in EndIds(rows) ==> exists i :: 0 <= i < |rows| && rows[i].key == End(u) && rows[i].id == EndIds(rows)[u]
  {
    if rows != [] {
      EndIdsMeans(rows[..|rows| - 1], u);
      assert forall i :: 0 <= i < |rows| - 1 ==> rows[..|rows| - 1][i] == rows[i];
    }
  }

  lemma FirstOfSame(ms: seq<Entry>, other: seq<Entry>, u: Turn)
    requires Of(ms, u) == Of(other, u) && Has(ms, u)
    ensures First(ms, u) == First(other, u)
  {
    FirstMeans(ms, u);
    FirstMeans(other, u);
  }

  /** A message of the base ranks the same whether the turn's own are there or not. */
  lemma BaseRanks(s: Session, t: Turn, m: Entry)
    requires t in s.runs && m in BaseOf(s, t)
    ensures RankIn(m, BaseOf(s, t)) == RankIn(m, LoadedOf(s, t))
  {
    if m.key.Writer().Some? {
      var u := m.key.Writer().value;
      var r, ends := s.runs[t], EndIds(s.rows);
      LoadedMeans(s.rows, t, r.earlier, ends, m);
      WholeOrNothing(s.rows, t, r.earlier, ends, u);
      BaseWholeOrNothing(s.rows, t, r.earlier, ends, u);
      HasMeans(BaseOf(s, t), m);
      FirstOfSame(BaseOf(s, t), LoadedOf(s, t), u);
    }
  }

  lemma OwnIsWritten(s: Session, t: Turn)
    requires t in s.runs
    ensures Of(LoadedOf(s, t), t) == Written(s.rows, t)
  {
    WholeOrNothing(s.rows, t, s.runs[t].earlier, EndIds(s.rows), t);
  }

  /** A turn read whole because it ended by then is anchored before the reader's message. */
  lemma EndedIsBefore(s: Session, u: Turn, upTo: int)
    requires OfRuns(s) && u in EndIds(s.rows) && EndIds(s.rows)[u] <= upTo
    ensures u.anchor < upTo && HasKey(s.rows, End(u))
  {
    EndIdsMeans(s.rows, u);
    var i :| 0 <= i < |s.rows| && s.rows[i].key == End(u) && s.rows[i].id == EndIds(s.rows)[u];
    assert Belongs(s.rows[i], s.runs);
  }

  predicate Earlier(w: seq<Entry>, t: seq<Entry>) { w != [] && t != [] ==> w[0].id < t[0].id }

  /** A turn relayed w began to write before the turn t did. */
  predicate Before(rows: seq<Entry>, w: Turn, t: Turn) { Earlier(Written(rows, w), Written(rows, t)) }

  ghost predicate InOrder(s: Session, t: Turn)
    requires t in s.runs
  {
    forall w :: w in s.runs[t].earlier ==> Before(s.rows, w, t)
  }

  /** The first message loaded of a turn that is read is the first one stored. */
  lemma FirstIsFirst(s: Session, t: Turn, u: Turn)
    requires Ascending(s.rows, s.next) && t in s.runs && Written(s.rows, u) != []
    requires ReadsTurn(u, t, s.runs[t].earlier, EndIds(s.rows))
    ensures First(LoadedOf(s, t), u) == Written(s.rows, u)[0].id
  {
    var l, w := LoadedOf(s, t), Written(s.rows, u);
    WholeOrNothing(s.rows, t, s.runs[t].earlier, EndIds(s.rows), u);
    WrittenAscends(s.rows, s.next, u);
    FirstMeans(l, u);
    assert w[0] in Of(l, u);
    var m :| m in Of(l, u) && m.id == First(l, u);
  }

  lemma {:induction false} WrittenAscends(rows: seq<Entry>, next: int, t: Turn)
    requires Ascending(rows, next)
    ensures forall i, j :: 0 <= i < j < |Written(rows, t)| ==> Written(rows, t)[i].id < Written(rows, t)[j].id
  {
    if rows != [] {
      var n := |rows| - 1;
      var w := Written(rows[..n], t);
      WrittenAscends(rows[..n], next, t);
      forall i | 0 <= i < |w| ensures w[i].id < rows[n].id { WrittenMeans(rows[..n], t, w[i]); }
    }
  }

  /** Everything the turn reads of the others ranks before what it wrote itself. */
  lemma OwnRanksLast(s: Session, t: Turn, m: Entry, x: Entry)
    requires RowsInv(s) && t in s.runs && InOrder(s, t) && m in BaseOf(s, t) && x in Written(s.rows, t)
    ensures RankLe(RankIn(m, LoadedOf(s, t)), RankIn(x, LoadedOf(s, t)))
  {
    LoadedMeans(s.rows, t, s.runs[t].earlier, EndIds(s.rows), m);
    WrittenMeans(s.rows, t, x);
    if m.key.Writer().Some? {
      var u := m.key.Writer().value;
      if u in s.runs[t].earlier {
        EarlierRanksFirst(s, t, u, m);
      } else if u.participant != t.participant {
        EndedIsBefore(s, u, t.anchor);
      }
    }
  }

  lemma EarlierRanksFirst(s: Session, t: Turn, u: Turn, m: Entry)
    requires RowsInv(s) && t in s.runs && u in s.runs[t].earlier && Before(s.rows, u, t)
    requires m in s.rows && m.key.Produced? && m.key.turn == u && Written(s.rows, t) != []
    ensures u.anchor == t.anchor && First(LoadedOf(s, t), u) < First(LoadedOf(s, t), t)
  {
    assert Relayed(s.runs, u, t);
    WrittenMeans(s.rows, u, m);
    FirstIsFirst(s, t, u);
    FirstIsFirst(s, t, t);
  }

  lemma OwnAscends(s: Session, t: Turn)
    requires RowsInv(s) && t in s.runs
    ensures InRankOrder(Written(s.rows, t), LoadedOf(s, t))
  {
    var w := Written(s.rows, t);
    WrittenAscends(s.rows, s.next, t);
    StoredBegins(s, t);
  }

  lemma BaseInOrder(s: Session, t: Turn)
    requires t in s.runs
    ensures InRankOrder(Ordered(BaseOf(s, t)), LoadedOf(s, t))
  {
    var b, l, out := BaseOf(s, t), LoadedOf(s, t), Ordered(BaseOf(s, t));
    OrderedIsSorted(b);
    forall i, j | 0 <= i < j < |out| ensures RankLe(RankIn(out[i], l), RankIn(out[j], l)) {
      assert out[i] in multiset(b) && out[j] in multiset(b);
      BaseRanks(s, t, out[i]);
      BaseRanks(s, t, out[j]);
      assert RankLe(RankIn(out[i], b), RankIn(out[j], b));
    }
  }

  /** The order of what is loaded: everything else, then the turn's own, as stored. */
  lemma OwnComesLast(s: Session, t: Turn)
    requires RowsInv(s) && t in s.runs && InOrder(s, t)
    ensures Ordered(LoadedOf(s, t)) == Ordered(BaseOf(s, t)) + Written(s.rows, t)
  {
    var b, l, w := BaseOf(s, t), LoadedOf(s, t), Written(s.rows, t);
    LoadedParts(s.rows, t, s.runs[t].earlier, EndIds(s.rows));
    LoadedUnique(s.rows, t, s.runs[t].earlier, EndIds(s.rows));
    BaseInOrder(s, t);
    OwnAscends(s, t);
    forall m, x | m in Ordered(b) && x in w ensures RankLe(RankIn(m, l), RankIn(x, l)) {
      assert m in multiset(b);
      OwnRanksLast(s, t, m, x);
    }
    Joined(Ordered(b), w, l);
    OnlyArrangement(l, Ordered(b) + w);
  }

  /** Then every turn relayed to it began to write before it did. */
  lemma OnlyInOrder(s: Session, t: Turn)
    requires RowsInv(s) && t in s.runs && Ordered(LoadedOf(s, t)) == Ordered(BaseOf(s, t)) + Written(s.rows, t)
    ensures InOrder(s, t)
  {
    forall w | w in s.runs[t].earlier ensures Before(s.rows, w, t) {
      if Written(s.rows, w) != [] && Written(s.rows, t) != [] { EarlierIsBefore(s, t, w); }
    }
  }

  lemma FirstPart(out: seq<Entry>, a: seq<Entry>, b: seq<Entry>, x: Entry, y: Entry, ms: seq<Entry>)
    requires InRankOrder(out, ms) && out == a + b && x in multiset(a) && b != [] && y == b[0]
    ensures RankLe(RankIn(x, ms), RankIn(y, ms))
  {
    var p :| 0 <= p < |a| && a[p] == x;
    assert out[p] == x && out[|a|] == y;
  }

  lemma EarlierIsRead(s: Session, t: Turn, w: Turn, x: Entry)
    requires RowsInv(s) && t in s.runs && w in s.runs[t].earlier && x in Written(s.rows, w)
    ensures x in multiset(Ordered(BaseOf(s, t))) && x.key.Writer() == Some(w) && w.anchor == t.anchor && w != t
  {
    assert Relayed(s.runs, w, t);
    WrittenMeans(s.rows, w, x);
    LoadedMeans(s.rows, t, s.runs[t].earlier, EndIds(s.rows), x);
    assert x in multiset(BaseOf(s, t));
  }

  lemma EarlierIsBefore(s: Session, t: Turn, w: Turn)
    requires RowsInv(s) && t in s.runs && w in s.runs[t].earlier && Written(s.rows, w) != [] && Written(s.rows, t) != []
    requires Ordered(LoadedOf(s, t)) == Ordered(BaseOf(s, t)) + Written(s.rows, t)
    ensures Before(s.rows, w, t)
  {
    var x, y := Written(s.rows, w)[0], Written(s.rows, t)[0];
    EarlierIsRead(s, t, w, x);
    WrittenMeans(s.rows, t, y);
    OrderedIsSorted(LoadedOf(s, t));
    FirstPart(Ordered(LoadedOf(s, t)), Ordered(BaseOf(s, t)), Written(s.rows, t), x, y, LoadedOf(s, t));
    FirstIsFirst(s, t, w);
    FirstIsFirst(s, t, t);
    OtherIds(s, w, t);
  }

  /** Two turns' messages have different IDs. */
  lemma OtherIds(s: Session, w: Turn, t: Turn)
    requires Ascending(s.rows, s.next) && w != t && Written(s.rows, w) != [] && Written(s.rows, t) != []
    ensures Written(s.rows, w)[0].id != Written(s.rows, t)[0].id
  {
    var x, y := Written(s.rows, w)[0], Written(s.rows, t)[0];
    WrittenMeans(s.rows, w, x);
    WrittenMeans(s.rows, t, y);
  }

  lemma PastMore(tail: seq<Message>, n: nat)
    requires tail != []
    ensures Past(tail, n) == Past(tail[..|tail| - 1], n) + if n <= |tail| - 1 then [tail[|tail| - 1]] else []
  {
  }

  /** The tail starts within what is stored: what is not found stored of it is the rest of the turn. */
  lemma {:induction false} TheRest(stored: set<Key>, t: Turn, start: nat, tail: seq<Message>, k: nat)
    requires start <= k && forall i :: Produced(t, i) in stored <==> 0 <= i < k
    ensures Unstored(stored, t, start, tail) == Past(tail, k - start)
  {
    if tail != [] {
      TheRest(stored, t, start, tail[..|tail| - 1], k);
      PastMore(tail, k - start);
    }
  }

  lemma OwnLoaded(rows: seq<Entry>, t: Turn, earlier: set<Turn>, ends: map<Turn, int>, i: int)
    ensures HasKey(Loaded(rows, t, earlier, ends), Produced(t, i)) <==> HasKey(rows, Produced(t, i))
  {
    var l := Loaded(rows, t, earlier, ends);
    if HasKey(rows, Produced(t, i)) {
      var k :| 0 <= k < |rows| && rows[k].key == Produced(t, i);
      LoadedMeans(rows, t, earlier, ends, rows[k]);
      assert rows[k] in l;
    }
    if HasKey(l, Produced(t, i)) {
      var k :| 0 <= k < |l| && l[k].key == Produced(t, i);
      LoadedMeans(rows, t, earlier, ends, l[k]);
    }
  }

  lemma SameKeys(a: seq<Entry>, b: seq<Entry>, key: Key)
    requires multiset(a) == multiset(b) && key in KeysOf(a)
    ensures HasKey(b, key)
  {
    var k :| 0 <= k < |a| && a[k].key == key;
    assert a[k] in multiset(b);
  }

  lemma OwnKeys(s: Session, t: Turn, i: int)
    requires Stored(s) && t in s.runs
    ensures Produced(t, i) in KeysOf(Ordered(LoadedOf(s, t))) <==> 0 <= i < |Written(s.rows, t)|
  {
    var l := LoadedOf(s, t);
    StoredBegins(s, t);
    StoredKeys(s.rows, t, s.runs[t]);
    OwnLoaded(s.rows, t, s.runs[t].earlier, EndIds(s.rows), i);
    if Produced(t, i) in KeysOf(Ordered(l)) { SameKeys(Ordered(l), l, Produced(t, i)); }
    if HasKey(l, Produced(t, i)) {
      assert Produced(t, i) in KeysOf(l);
      SameKeys(l, Ordered(l), Produced(t, i));
    }
  }

  lemma StoredBegins(s: Session, t: Turn)
    requires Stored(s) && t in s.runs
    ensures Begins(Written(s.rows, t), t, s.runs[t])
  {
    assert StoredRun(s.rows, t, s.runs[t]);
  }

  /** What is stored that the turn reads, in order, then what this run produced past what is stored of it. */
  ghost function ReadSplit(s: Session, t: Turn): seq<Message>
    requires t in s.runs
  {
    Msgs(Ordered(LoadedOf(s, t))) + Past(s.runs[t].msgs, |Written(s.rows, t)|)
  }

  /** A call reads that. */
  lemma ReadMeans(s: Session, t: Turn)
    requires Stored(s) && t in s.runs
    ensures s.runs[t].told <= |s.runs[t].msgs|
    ensures ReadBy(s, t) == ReadSplit(s, t)
  {
    ToldIsStored(s, t);
    TailRead(s, t);
  }

  lemma ToldIsStored(s: Session, t: Turn)
    requires Stored(s) && t in s.runs
    ensures s.runs[t].told <= |s.runs[t].msgs| && s.runs[t].told <= |Written(s.rows, t)|
  {
    StoredBegins(s, t);
  }

  lemma RestOfTold(msgs: seq<Message>, told: nat, k: nat)
    requires told <= |msgs| && told <= k
    ensures Past(msgs[told..], k - told) == Past(msgs, k)
  {
    if k <= |msgs| { assert msgs[told..][k - told..] == msgs[k..]; }
  }

  lemma AllOwnKeys(s: Session, t: Turn)
    requires Stored(s) && t in s.runs
    ensures forall i :: Produced(t, i) in KeysOf(Ordered(LoadedOf(s, t))) <==> 0 <= i < |Written(s.rows, t)|
  {
    forall i ensures Produced(t, i) in KeysOf(Ordered(LoadedOf(s, t))) <==> 0 <= i < |Written(s.rows, t)| { OwnKeys(s, t, i); }
  }

  lemma TailRead(s: Session, t: Turn)
    requires Stored(s) && t in s.runs && s.runs[t].told <= |s.runs[t].msgs| && s.runs[t].told <= |Written(s.rows, t)|
    ensures Unstored(KeysOf(Ordered(LoadedOf(s, t))), t, s.runs[t].told, s.runs[t].msgs[s.runs[t].told..]) == Past(s.runs[t].msgs, |Written(s.rows, t)|)
  {
    var r, k := s.runs[t], |Written(s.rows, t)|;
    AllOwnKeys(s, t);
    TheRest(KeysOf(Ordered(LoadedOf(s, t))), t, r.told, r.msgs[r.told..], k);
    RestOfTold(r.msgs, r.told, k);
  }

  /** What is stored of a turn, then the rest of what this run produced. */
  lemma HeldParts(r: Run, k: nat)
    requires |r.kept| <= k <= |Held(r)|
    ensures Held(r) == Held(r)[..k] + Past(r.msgs, k)
  {
  }

  lemma MsgsOfBoth(a: seq<Entry>, b: seq<Entry>)
    ensures Msgs(a + b) == Msgs(a) + Msgs(b)
  {
  }

  lemma StoredThenRest(b: seq<Entry>, w: seq<Entry>, t: Turn, r: Run)
    requires Begins(w, t, r)
    ensures Msgs(b + w) + Past(r.msgs, |w|) == Msgs(b) + Held(r)
  {
    MsgsOfBoth(b, w);
    assert Msgs(w) == Held(r)[..|w|];
    HeldParts(r, |w|);
  }

  /** In order, a call reads the others' messages, then what the keys of its turn stand for. */
  lemma ReadInOrder(s: Session, t: Turn)
    requires RowsInv(s) && t in s.runs && InOrder(s, t)
    ensures s.runs[t].told <= |s.runs[t].msgs|
    ensures ReadBy(s, t) == Msgs(Ordered(BaseOf(s, t))) + Held(s.runs[t])
  {
    ReadMeans(s, t);
    OwnComesLast(s, t);
    StoredBegins(s, t);
    StoredThenRest(Ordered(BaseOf(s, t)), Written(s.rows, t), t, s.runs[t]);
  }

  // --- The turn's own messages last, and when ---

  /** The turn's messages, stored or not, come last, each once and in the order this run produced them. */
  ghost predicate OwnLast(s: Session, t: Turn)
    requires t in s.runs
  {
    && Ordered(LoadedOf(s, t)) == Ordered(BaseOf(s, t)) + Written(s.rows, t)
    && s.runs[t].told <= |s.runs[t].msgs| && ReadBy(s, t) == Msgs(Ordered(BaseOf(s, t))) + s.runs[t].msgs
  }

  lemma HeldIsOwn(r: Run)
    ensures Held(r) == r.msgs <==> r.kept <= r.msgs
  {
    if r.kept <= r.msgs { assert Held(r) == r.msgs; }
  }

  /** In every state of every run, a turn reads its own messages last, each once and in order, if and only
      if what an earlier run of it stored is the beginning of what this one produced, and each turn relayed
      to it began to write before it. */
  lemma OwnMessagesLast(es: seq<Event>, s: Session, t: Turn)
    requires Reaches(EMPTY, es, s) && t in s.runs
    ensures OwnLast(s, t) <==> s.runs[t].kept <= s.runs[t].msgs && InOrder(s, t)
  {
    RunKeeps(EMPTY, es, s);
    OwnLastMeans(s, t);
  }

  lemma OwnLastMeans(s: Session, t: Turn)
    requires RowsInv(s) && t in s.runs
    ensures OwnLast(s, t) <==> s.runs[t].kept <= s.runs[t].msgs && InOrder(s, t)
  {
    var b, r := Msgs(Ordered(BaseOf(s, t))), s.runs[t];
    if OwnLast(s, t) { OnlyInOrder(s, t); }
    if InOrder(s, t) {
      OwnComesLast(s, t);
      ReadInOrder(s, t);
      HeldIsOwn(r);
      assert b + Held(r) == b + r.msgs ==> Held(r) == r.msgs by {
        if b + Held(r) == b + r.msgs { assert (b + Held(r))[|b|..] == (b + r.msgs)[|b|..]; }
      }
    }
  }

  ghost predicate AllOwnLast(s: Session) { forall t :: Active(s, t) ==> OwnLast(s, t) }

  /** A turn w begins to store after t did. */
  ghost predicate Overtaken(s: Session, e: Event, w: Turn, t: Turn) {
    e.Write? && e.turn == w && e.upTo > 0 && Written(s.rows, w) == [] && Written(s.rows, t) != []
  }

  ghost predicate OvertakenBy(s: Session, e: Event, t: Turn)
    requires t in s.runs
  {
    exists w :: w in s.runs[t].earlier && Overtaken(s, e, w, t)
  }

  /** A turn begins with nothing stored of it; a turn relayed to one in progress does not begin to store
      after that one did. */
  ghost predicate Harmless(s: Session, e: Event) {
    (e.Begin? ==> Written(s.rows, e.turn) == []) && forall t :: Active(s, t) ==> !OvertakenBy(s, e, t)
  }

  /** A write stores the rest of its batch. */
  lemma WriteAdds(s: Session, e: Event) returns (more: seq<Entry>)
    requires RowsInv(s) && Enabled(s, e) && e.Write?
    ensures Apply(s, e).rows == s.rows + more
    ensures |more| == if |Written(s.rows, e.turn)| < e.upTo then e.upTo - |Written(s.rows, e.turn)| else 0
    ensures forall i :: 0 <= i < |more| ==> more[i].id >= s.next && more[i].key.Produced? && more[i].key.turn == e.turn
  {
    StoredBegins(s, e.turn);
    StoredKeys(s.rows, e.turn, s.runs[e.turn]);
    more := Writes(s.rows, s.next, e.turn, |Written(s.rows, e.turn)|, e.from, e.upTo, s.runs[e.turn].msgs, e.ids);
  }

  lemma WritesOf(s: Session, e: Event, u: Turn) returns (more: seq<Entry>)
    requires RowsInv(s) && Enabled(s, e) && e.Write?
    ensures Written(Apply(s, e).rows, u) == Written(s.rows, u) + more
    ensures |more| == if e.turn == u && |Written(s.rows, u)| < e.upTo then e.upTo - |Written(s.rows, u)| else 0
    ensures forall i :: 0 <= i < |more| ==> more[i].id >= s.next
  {
    var all := WriteAdds(s, e);
    WrittenAppended(s.rows, all, u);
    WrittenBy(all, e.turn, u);
    more := if u == e.turn then all else [];
  }

  lemma WritesNone(s: Session, e: Event, u: Turn)
    requires Enabled(s, e) && !e.Write?
    ensures Written(Apply(s, e).rows, u) == Written(s.rows, u)
  {
    var rows := Apply(s, e).rows;
    if rows != s.rows { OtherRow(s.rows, rows[|s.rows|], u); }
  }

  /** What a step adds to what is stored of a turn. */
  lemma WrittenStep(s: Session, e: Event, u: Turn) returns (more: seq<Entry>)
    requires RowsInv(s) && Enabled(s, e)
    ensures Written(Apply(s, e).rows, u) == Written(s.rows, u) + more
    ensures |more| == if e.Write? && e.turn == u && |Written(s.rows, u)| < e.upTo then e.upTo - |Written(s.rows, u)| else 0
    ensures forall i :: 0 <= i < |more| ==> more[i].id >= s.next
  {
    if e.Write? {
      more := WritesOf(s, e, u);
    } else {
      WritesNone(s, e, u);
      more := [];
    }
  }

  lemma OtherRow(rows: seq<Entry>, x: Entry, u: Turn)
    requires !x.key.Produced?
    ensures Written(rows + [x], u) == Written(rows, u)
  {
    WrittenAppended(rows, [x], u);
    WrittenNone([x], u);
  }

  lemma WrittenEarlier(s: Session, u: Turn)
    requires Ascending(s.rows, s.next) && Written(s.rows, u) != []
    ensures Written(s.rows, u)[0].id < s.next
  {
    WrittenMeans(s.rows, u, Written(s.rows, u)[0]);
  }

  /** More of one of two turns, of IDs yet to come. */
  lemma EarlierStays(w: seq<Entry>, a: seq<Entry>, t: seq<Entry>, b: seq<Entry>, next: int)
    requires Earlier(w, t) && (a == [] || b == []) && (w != [] ==> w[0].id < next) && (t != [] ==> t[0].id < next)
    requires (forall i :: 0 <= i < |a| ==> a[i].id >= next) && (forall i :: 0 <= i < |b| ==> b[i].id >= next)
    ensures Earlier(w + a, t + b) <==> !(w == [] && a != [] && t != [])
  {
  }

  lemma OvertakenMeans(s: Session, e: Event, w: Turn, t: Turn, a: seq<Entry>)
    requires |a| == if e.Write? && e.turn == w && |Written(s.rows, w)| < e.upTo then e.upTo - |Written(s.rows, w)| else 0
    ensures Overtaken(s, e, w, t) <==> Written(s.rows, w) == [] && a != [] && Written(s.rows, t) != []
  {
  }

  /** A step leaves a turn relayed w before the turn t, unless w begins to store after t did. */
  lemma BeforeStep(s: Session, e: Event, w: Turn, t: Turn)
    requires RowsInv(s) && Enabled(s, e) && Before(s.rows, w, t) && w != t
    ensures Before(Apply(s, e).rows, w, t) <==> !Overtaken(s, e, w, t)
  {
    var a := WrittenStep(s, e, w);
    var b := WrittenStep(s, e, t);
    if Written(s.rows, w) != [] { WrittenEarlier(s, w); }
    if Written(s.rows, t) != [] { WrittenEarlier(s, t); }
    EarlierStays(Written(s.rows, w), a, Written(s.rows, t), b, s.next);
    OvertakenMeans(s, e, w, t, a);
  }

  lemma RunGoesOn(s: Session, e: Event, t: Turn)
    requires Enabled(s, e) && Active(s, t)
    ensures var runs := Apply(s, e).runs;
      && t in runs && runs[t].earlier == s.runs[t].earlier && runs[t].kept == s.runs[t].kept && s.runs[t].msgs <= runs[t].msgs
      && runs[t].agent == s.runs[t].agent && runs[t].user == s.runs[t].user
  {
  }

  lemma EarlierIsOther(s: Session, t: Turn, w: Turn)
    requires Relays(s.runs, s.next) && t in s.runs && w in s.runs[t].earlier
    ensures w != t && w in s.runs && WasOver(s.runs[w])
  {
    assert Relayed(s.runs, w, t);
  }

  lemma InOrderStep(s: Session, e: Event, t: Turn)
    requires Inv(s) && Enabled(s, e) && Active(s, t) && InOrder(s, t)
    ensures t in Apply(s, e).runs && (InOrder(Apply(s, e), t) <==> !OvertakenBy(s, e, t))
  {
    RunGoesOn(s, e, t);
    forall w | w in s.runs[t].earlier ensures Before(Apply(s, e).rows, w, t) <==> !Overtaken(s, e, w, t) {
      EarlierIsOther(s, t, w);
      BeforeStep(s, e, w, t);
    }
  }

  lemma PrefixOfMore(a: seq<Message>, b: seq<Message>, c: seq<Message>)
    requires a <= b && b <= c
    ensures a <= c
  {
  }

  /** A turn in progress goes on reading its own messages last, unless a turn relayed to it overtakes it. */
  lemma GoesOnLast(s: Session, e: Event, t: Turn)
    requires Inv(s) && Enabled(s, e) && Active(s, t) && OwnLast(s, t)
    ensures t in Apply(s, e).runs && (OwnLast(Apply(s, e), t) <==> !OvertakenBy(s, e, t))
  {
    StepKeeps(s, e);
    RunGoesOn(s, e, t);
    OwnLastMeans(s, t);
    OwnLastMeans(Apply(s, e), t);
    InOrderStep(s, e, t);
    PrefixOfMore(s.runs[t].kept, s.runs[t].msgs, Apply(s, e).runs[t].msgs);
  }

  /** A turn that begins reads its own messages last exactly when nothing is stored of it. */
  lemma BeginsLast(s: Session, e: Event)
    requires Inv(s) && Enabled(s, e) && e.Begin?
    ensures OwnLast(Apply(s, e), e.turn) <==> Written(s.rows, e.turn) == []
  {
    var t, next := e.turn, Apply(s, e);
    StepKeeps(s, e);
    OwnLastMeans(next, t);
    assert next.runs[t].msgs == [] && |next.runs[t].kept| == |Written(s.rows, t)|;
  }

  lemma GoOrBegin(s: Session, e: Event, t: Turn)
    requires Enabled(s, e)
    ensures Active(Apply(s, e), t) && !Active(s, t) ==> e.Begin? && t == e.turn
    ensures Active(s, t) && !e.Finish? ==> Active(Apply(s, e), t)
    ensures e.Begin? ==> Active(Apply(s, e), e.turn) && !Active(s, e.turn)
  {
  }

  lemma HarmlessKeeps(s: Session, e: Event, t: Turn)
    requires Inv(s) && Enabled(s, e) && AllOwnLast(s) && Harmless(s, e) && Active(Apply(s, e), t)
    ensures OwnLast(Apply(s, e), t)
  {
    if Active(s, t) {
      GoesOnLast(s, e, t);
    } else {
      GoOrBegin(s, e, t);
      BeginsLast(s, e);
    }
  }

  /** A step keeps every turn in progress reading its own messages last if and only if it is harmless. */
  lemma OwnLastExactlyWhen(s: Session, e: Event)
    requires Inv(s) && Enabled(s, e) && AllOwnLast(s)
    ensures AllOwnLast(Apply(s, e)) <==> Harmless(s, e)
  {
    var next := Apply(s, e);
    if Harmless(s, e) {
      forall t | Active(next, t) ensures OwnLast(next, t) { HarmlessKeeps(s, e, t); }
    } else if e.Begin? && Written(s.rows, e.turn) != [] {
      BeginsLast(s, e);
      GoOrBegin(s, e, e.turn);
    } else {
      var t :| Active(s, t) && OvertakenBy(s, e, t);
      GoesOnLast(s, e, t);
      GoOrBegin(s, e, t);
    }
  }

  /** Every step of a run is harmless. */
  ghost predicate AllHarmless(s: Session, es: seq<Event>)
    decreases |es|
  {
    es == [] || (Enabled(s, es[0]) && Harmless(s, es[0]) && AllHarmless(Apply(s, es[0]), es[1..]))
  }

  lemma {:induction false} RunsOwnLast(s: Session, es: seq<Event>, last: Session)
    requires Inv(s) && AllOwnLast(s) && Reaches(s, es, last) && AllHarmless(s, es)
    ensures AllOwnLast(last)
    decreases |es|
  {
    if es != [] {
      StepKeeps(s, es[0]);
      OwnLastExactlyWhen(s, es[0]);
      RunsOwnLast(Apply(s, es[0]), es[1..], last);
    }
  }

  // --- Runs in which no turn is begun again ---

  /** The step runs no turn again, and ends none in progress but by its own writer. */
  predicate OnceStep(s: Session, e: Event) {
    (e.Begin? ==> e.turn !in s.runs) && (e.Drop? ==> !Active(s, e.turn))
  }

  /** Each message is answered once, the end of its turn its last word. */
  ghost predicate Once(s: Session, es: seq<Event>)
    decreases |es|
  {
    es == [] || (Enabled(s, es[0]) && OnceStep(s, es[0]) && Once(Apply(s, es[0]), es[1..]))
  }

  ghost predicate NoneAgain(s: Session) { forall u :: u in s.runs ==> !s.runs[u].again && s.runs[u].kept == [] }

  ghost predicate EndsAreLast(s: Session) { forall u :: HasKey(s.rows, End(u)) ==> !Active(s, u) }

  /** Every turn was run once, and is over when it has an end. */
  ghost predicate Regular(s: Session) { NoneAgain(s) && EndsAreLast(s) }

  lemma EarlierIsOver(s: Session, t: Turn, w: Turn)
    requires Relays(s.runs, s.next) && NoneAgain(s) && t in s.runs && w in s.runs[t].earlier
    ensures !Active(s, w)
  {
    assert Relayed(s.runs, w, t);
  }

  lemma OnceIsHarmless(s: Session, e: Event)
    requires Inv(s) && Enabled(s, e) && NoneAgain(s) && OnceStep(s, e)
    ensures Harmless(s, e)
  {
    if e.Begin? { NoRows(s, e.turn); }
    forall t, w | Active(s, t) && w in s.runs[t].earlier ensures !Overtaken(s, e, w, t) { EarlierIsOver(s, t, w); }
  }

  lemma NoneBegunAgain(s: Session, e: Event)
    requires Inv(s) && Enabled(s, e) && NoneAgain(s) && OnceStep(s, e)
    ensures NoneAgain(Apply(s, e))
  {
    if e.Begin? { NoRows(s, e.turn); }
    forall u | u in s.runs && u in Apply(s, e).runs && !(e.Begin? && e.turn == u) ensures !Apply(s, e).runs[u].again && Apply(s, e).runs[u].kept == [] {
      KeptStays(s, e, u);
    }
  }

  lemma KeptStays(s: Session, e: Event, u: Turn)
    requires Enabled(s, e) && u in s.runs && !(e.Begin? && e.turn == u)
    ensures u in Apply(s, e).runs && Apply(s, e).runs[u].again == s.runs[u].again && Apply(s, e).runs[u].kept == s.runs[u].kept
  {
  }

  lemma KeyStays(rows: seq<Entry>, more: seq<Entry>, key: Key)
    requires HasKey(rows + more, key) && forall i :: 0 <= i < |more| ==> more[i].key != key
    ensures HasKey(rows, key)
  {
    var k :| 0 <= k < |rows + more| && (rows + more)[k].key == key;
    assert k < |rows| ==> rows[k].key == key;
  }

  /** An end stored by a step is the one it writes. */
  lemma EndStored(s: Session, e: Event, u: Turn)
    requires RowsInv(s) && Enabled(s, e) && HasKey(Apply(s, e).rows, End(u))
    ensures HasKey(s.rows, End(u)) || ((e.Finish? || e.Drop?) && e.turn == u)
  {
    var rows := Apply(s, e).rows;
    if e.Write? {
      var more := WriteAdds(s, e);
      KeyStays(s.rows, more, End(u));
    } else if rows != s.rows {
      HasOneMore(s.rows, rows[|s.rows|], End(u));
    }
  }

  lemma EndsStayLast(s: Session, e: Event)
    requires Inv(s) && Enabled(s, e) && EndsAreLast(s) && OnceStep(s, e)
    ensures EndsAreLast(Apply(s, e))
  {
    var next := Apply(s, e);
    forall u | HasKey(next.rows, End(u)) ensures !Active(next, u) {
      GoOrBegin(s, e, u);
      EndStored(s, e, u);
    }
  }

  lemma OnceStays(s: Session, e: Event)
    requires Inv(s) && Enabled(s, e) && Regular(s) && OnceStep(s, e)
    ensures Regular(Apply(s, e))
  {
    NoneBegunAgain(s, e);
    EndsStayLast(s, e);
  }

  lemma {:induction false} OnceRunsAreHarmless(s: Session, es: seq<Event>, last: Session)
    requires Inv(s) && Regular(s) && Reaches(s, es, last) && Once(s, es)
    ensures AllHarmless(s, es) && Regular(last)
    decreases |es|
  {
    if es != [] {
      OnceIsHarmless(s, es[0]);
      OnceStays(s, es[0]);
      StepKeeps(s, es[0]);
      OnceRunsAreHarmless(Apply(s, es[0]), es[1..], last);
    }
  }

  /** In every run in which each message is answered once: what a call reads is what the others wrote that
      its turn may read, then the turn's own messages, stored or not, each once and in order. */
  lemma AnsweredOnce(es: seq<Event>, last: Session, t: Turn)
    requires Reaches(EMPTY, es, last) && Once(EMPTY, es) && Active(last, t)
    ensures OwnLast(last, t)
  {
    OnceRunsAreHarmless(EMPTY, es, last);
    RunsOwnLast(EMPTY, es, last);
  }
}
