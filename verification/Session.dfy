/** A session shared by several agents answering in parallel (store/postgres.go, activity/llm.go):
    the rows, the turns that write them, and what each call of a turn reads over any run. */
module Session {
  import opened Text
  import opened Keys
  import opened Messages
  import opened Order
  import opened Scope
  import opened Convert
  import opened Reading

  // --- Writing rows ---

  ghost predicate HasKey(rows: seq<Entry>, key: Key) { exists i :: 0 <= i < |rows| && rows[i].key == key }

  predicate KeyIn(rows: seq<Entry>, key: Key)
    ensures KeyIn(rows, key) <==> HasKey(rows, key)
  {
    rows != [] && (rows[|rows| - 1].key == key || KeyIn(rows[..|rows| - 1], key))
  }

  /** One row under a key: written once, a retry leaves the first. */
  function AppendOne(rows: seq<Entry>, key: Key, msg: Message, id: int): seq<Entry> {
    if KeyIn(rows, key) then rows else rows + [Entry(id, key, msg)]
  }

  /** A turn's messages from index start, in one transaction, those already stored left alone. */
  function AppendAll(rows: seq<Entry>, t: Turn, start: nat, msgs: seq<Message>, ids: seq<int>): seq<Entry>
    requires |ids| == |msgs|
    decreases |msgs|
  {
    if msgs == [] then rows
    else AppendAll(AppendOne(rows, Produced(t, start), msgs[0], ids[0]), t, start + 1, msgs[1..], ids[1..])
  }

  // --- The state and what happens to it ---

  /** A turn as its participant runs it: who answers whom, the turns it reads whole, what earlier runs of
      it had stored when it began, what this one produced, the IDs of the calls all its runs made, what
      it knows is stored, whether this run is over, whether there was one before. */
  datatype Run = Run(
    agent: string,
    user: string,
    earlier: set<Turn>,
    kept: seq<Message>,
    msgs: seq<Message>,
    made: set<string>,
    told: nat,
    over: bool,
    again: bool)

  datatype Session = Session(rows: seq<Entry>, next: int, runs: map<Turn, Run>)

  datatype Event =
    | Post(key: Key, msg: Message, id: int)
    | Begin(turn: Turn, agent: string, user: string, earlier: set<Turn>)
    | Produce(turn: Turn, batch: seq<Message>)
    | Write(turn: Turn, from: nat, upTo: nat, ids: seq<int>)
    | Confirm(turn: Turn, upTo: nat)
    | Finish(turn: Turn, end: Option<Message>, id: int)
    | Drop(turn: Turn, msg: Message, id: int)

  predicate Active(s: Session, t: Turn) { t in s.runs && !s.runs[t].over }

  predicate WasOver(r: Run) { r.over || r.again }

  /** What is left of msgs past the first k. */
  function Past(msgs: seq<Message>, k: nat): seq<Message> { if k <= |msgs| then msgs[k..] else [] }

  /** What the keys of the turn's messages stand for: a key once stored keeps the message of the run that
      stored it. */
  function Held(r: Run): seq<Message> { r.kept + Past(r.msgs, |r.kept|) }

  /** A message a turn of this run produces: its agent's, answering its user, or a tool's result. */
  predicate Signed(m: Message, r: Run) {
    WellShaped(m) && m.role != User && m.kind == Kind.Ordinary && (m.role == Assistant ==> m.agentId == r.agent && m.userId == r.user)
  }

  ghost predicate MadeIn(msgs: seq<Message>, id: string) {
    exists i, j :: 0 <= i < |msgs| && 0 <= j < |msgs[i].calls| && msgs[i].calls[j].id == id
  }

  ghost function CallsMade(msgs: seq<Message>): (ids: set<string>)
    ensures forall id :: id in ids <==> MadeIn(msgs, id)
  {
    set i, j | 0 <= i < |msgs| && 0 <= j < |msgs[i].calls| :: msgs[i].calls[j].id
  }

  ghost predicate FreshCalls(s: Session, batch: seq<Message>) {
    UniqueCalls(batch) && forall t, id :: t in s.runs && MadeIn(batch, id) ==> id !in s.runs[t].made
  }

  predicate Ids(ids: seq<int>, next: int) {
    (forall i :: 0 <= i < |ids| ==> next <= ids[i]) && (forall i, j :: 0 <= i < j < |ids| ==> ids[i] < ids[j])
  }

  /** A message no turn wrote is stored as id. */
  ghost predicate AnchorIn(rows: seq<Entry>, id: int) {
    exists i :: 0 <= i < |rows| && rows[i].id == id && rows[i].key.Writer() == None
  }

  /** Each participant answers one message at a time, again when it is delivered again and its end could
      not be written; a relayed turn begins once the earlier ones were over. An end is also written for a
      turn not in progress: a message dropped from the inbox, a relay or a wake given up. */
  ghost predicate Enabled(s: Session, e: Event) {
    match e
    case Post(key, msg, id) => key.Writer() == None && msg.calls == [] && msg.result == None && id >= s.next
    case Begin(t, agent, user, earlier) =>
      && !HasKey(s.rows, End(t)) && AnchorIn(s.rows, t.anchor)
      && (t in s.runs ==> s.runs[t].agent == agent && s.runs[t].user == user)
      && (forall u :: Active(s, u) ==> u.participant != t.participant)
      && (forall w :: w in earlier ==> w in s.runs && WasOver(s.runs[w]) && w.anchor == t.anchor && w.participant != t.participant)
    case Produce(t, batch) =>
      Active(s, t) && Scan(batch) == Some([]) && FreshCalls(s, batch) && forall i :: 0 <= i < |batch| ==> Signed(batch[i], s.runs[t])
    case Write(t, from, upTo, ids) =>
      && Active(s, t) && from <= |Written(s.rows, t)| && from <= upTo <= |s.runs[t].msgs|
      && Scan(s.runs[t].msgs[..upTo]) == Some([]) && |ids| == upTo - from && Ids(ids, s.next)
    case Confirm(t, upTo) => Active(s, t) && s.runs[t].told <= upTo <= |Written(s.rows, t)| && upTo <= |s.runs[t].msgs|
    case Finish(t, end, id) => Active(s, t) && id >= s.next
    case Drop(t, msg, id) => AnchorIn(s.rows, t.anchor) && id >= s.next
  }

  function NextId(next: int, ids: seq<int>): int { if ids == [] then next else ids[|ids| - 1] + 1 }

  /** The turn t as it begins, for the first time or again. */
  function Begun(s: Session, t: Turn, agent: string, user: string, earlier: set<Turn>): Run {
    Run(agent, user, earlier, Msgs(Written(s.rows, t)), [], if t in s.runs then s.runs[t].made else {}, 0, false, t in s.runs)
  }

  ghost function Apply(s: Session, e: Event): Session
    requires Enabled(s, e)
  {
    match e
    case Post(key, msg, id) => s.(rows := AppendOne(s.rows, key, msg, id), next := id + 1)
    case Begin(t, agent, user, earlier) => s.(runs := s.runs[t := Begun(s, t, agent, user, earlier)])
    case Produce(t, batch) =>
      s.(runs := s.runs[t := s.runs[t].(msgs := s.runs[t].msgs + batch, made := s.runs[t].made + CallsMade(batch))])
    case Write(t, from, upTo, ids) =>
      s.(rows := AppendAll(s.rows, t, from, s.runs[t].msgs[from..upTo], ids), next := NextId(s.next, ids))
    case Confirm(t, upTo) => s.(runs := s.runs[t := s.runs[t].(told := upTo)])
    case Finish(t, end, id) =>
      Session(if end.Some? then AppendOne(s.rows, End(t), end.value, id) else s.rows, id + 1, s.runs[t := s.runs[t].(over := true)])
    case Drop(t, msg, id) => s.(rows := AppendOne(s.rows, End(t), msg, id), next := id + 1)
  }

  /** The state last is reached from s by the events es. */
  ghost predicate Reaches(s: Session, es: seq<Event>, last: Session)
    decreases |es|
  {
    if es == [] then s == last else Enabled(s, es[0]) && Reaches(Apply(s, es[0]), es[1..], last)
  }

  const EMPTY := Session([], 1, map[])

  ghost predicate Leads(s: Session, e: Event, next: Session) { Enabled(s, e) && Apply(s, e) == next }

  lemma Onward(es: seq<Event>, k: nat, s: Session, next: Session, last: Session)
    requires k < |es| && Leads(s, es[k], next) && Reaches(next, es[k + 1..], last)
    ensures Reaches(s, es[k..], last)
  {
    assert es[k..][1..] == es[k + 1..];
  }

  // --- What every run keeps ---

  ghost predicate Ascending(rows: seq<Entry>, next: int) {
    (forall i, j :: 0 <= i < j < |rows| ==> rows[i].id < rows[j].id) && (forall i :: 0 <= i < |rows| ==> rows[i].id < next)
  }

  ghost predicate KeysUnique(rows: seq<Entry>) {
    forall i, j :: 0 <= i < j < |rows| ==> rows[i].key != rows[j].key
  }

  /** A row no turn wrote makes no call; a turn's row, or an end of it, comes after its anchor. */
  predicate Belongs(e: Entry, runs: map<Turn, Run>) {
    match e.key.Writer()
    case None => e.msg.calls == [] && e.msg.result == None
    case Some(u) => u.anchor < e.id && (!e.key.End? ==> u in runs)
  }

  ghost predicate OfRuns(s: Session) { forall i :: 0 <= i < |s.rows| ==> Belongs(s.rows[i], s.runs) }

  /** What is stored of a turn, w, is the beginning of what its keys stand for, in order, at least what
      was stored as it began, and up to where a batch of this run ended. */
  ghost predicate Begins(w: seq<Entry>, u: Turn, r: Run) {
    && r.told <= |w| && r.told <= |r.msgs| && |r.kept| <= |w| <= |Held(r)|
    && (forall i :: 0 <= i < |w| ==> w[i].key == Produced(u, i) && w[i].msg == Held(r)[i])
    && Scan(r.msgs) == Some([]) && (|r.kept| < |w| ==> Scan(r.msgs[..|w|]) == Some([]))
  }

  ghost predicate StoredRun(rows: seq<Entry>, u: Turn, r: Run) { Begins(Written(rows, u), u, r) }

  ghost predicate Stored(s: Session) { forall u :: u in s.runs ==> StoredRun(s.rows, u, s.runs[u]) }

  ghost predicate OneEach(runs: map<Turn, Run>) {
    forall u, w :: u in runs && w in runs && !runs[u].over && !runs[w].over && u.participant == w.participant ==> u == w
  }

  predicate Relayed(runs: map<Turn, Run>, w: Turn, u: Turn) {
    w in runs && WasOver(runs[w]) && w.anchor == u.anchor && w.participant != u.participant
  }

  ghost predicate Relays(runs: map<Turn, Run>, next: int) {
    forall u :: u in runs ==> u.anchor < next && forall w :: w in runs[u].earlier ==> Relayed(runs, w, u)
  }

  /** What the turn's runs stored before this one and what this one produced. */
  function Told(r: Run): seq<Message> { r.kept + r.msgs }

  ghost predicate SignedRuns(runs: map<Turn, Run>) {
    forall u, i :: u in runs && 0 <= i < |Told(runs[u])| ==> Signed(Told(runs[u])[i], runs[u])
  }

  /** A turn makes each call once, and answers its own. */
  ghost predicate OwnCalls(r: Run) {
    && UniqueCalls(Told(r))
    && (forall id :: MadeIn(Told(r), id) ==> id in r.made)
    && (forall i :: 0 <= i < |Told(r)| && Told(r)[i].result.Some? ==> Told(r)[i].result.value.callId in r.made)
  }

  ghost predicate CallsOnce(runs: map<Turn, Run>) {
    && (forall u :: u in runs ==> OwnCalls(runs[u]))
    && (forall u, w :: u in runs && w in runs && u != w ==> runs[u].made !! runs[w].made)
  }

  /** What the turns keep among themselves. */
  ghost predicate RunsInv(runs: map<Turn, Run>) { OneEach(runs) && SignedRuns(runs) && CallsOnce(runs) }

  /** What the rows keep, with the turns that wrote them. */
  ghost predicate RowsInv(s: Session) {
    Ascending(s.rows, s.next) && KeysUnique(s.rows) && OfRuns(s) && Stored(s) && Relays(s.runs, s.next)
  }

  ghost predicate Inv(s: Session) { RowsInv(s) && RunsInv(s.runs) }

  // --- A transaction writes what was not stored yet ---

  /** The rows of a turn's messages from index start. */
  function Fresh(t: Turn, start: nat, msgs: seq<Message>, ids: seq<int>): (r: seq<Entry>)
    requires |ids| == |msgs|
    ensures |r| == |msgs|
    ensures forall i :: 0 <= i < |msgs| ==> r[i] == Entry(ids[i], Produced(t, start + i), msgs[i])
  {
    seq(|msgs|, i requires 0 <= i < |msgs| => Entry(ids[i], Produced(t, start + i), msgs[i]))
  }

  lemma {:induction false} WrittenMeans(rows: seq<Entry>, t: Turn, e: Entry)
    ensures e in Written(rows, t) <==> e in rows && e.key.Produced? && e.key.turn == t
  {
    if rows != [] {
      WrittenMeans(rows[..|rows| - 1], t, e);
      assert rows == rows[..|rows| - 1] + [rows[|rows| - 1]];
    }
  }

  lemma {:induction false} WrittenAppended(rows: seq<Entry>, more: seq<Entry>, t: Turn)
    ensures Written(rows + more, t) == Written(rows, t) + Written(more, t)
  {
    if more == [] {
      assert rows + more == rows;
    } else {
      WrittenAppended(rows, more[..|more| - 1], t);
      assert (rows + more)[..|rows + more| - 1] == rows + more[..|more| - 1];
    }
  }

  ghost predicate StoredTo(rows: seq<Entry>, t: Turn, stored: nat) {
    forall i :: HasKey(rows, Produced(t, i)) <==> 0 <= i < stored
  }

  lemma StoredKeys(rows: seq<Entry>, t: Turn, r: Run)
    requires StoredRun(rows, t, r)
    ensures StoredTo(rows, t, |Written(rows, t)|)
  {
    var w := Written(rows, t);
    forall i ensures HasKey(rows, Produced(t, i)) <==> 0 <= i < |w| {
      if HasKey(rows, Produced(t, i)) {
        var k :| 0 <= k < |rows| && rows[k].key == Produced(t, i);
        WrittenMeans(rows, t, rows[k]);
        var j :| 0 <= j < |w| && w[j] == rows[k];
      }
      if 0 <= i < |w| {
        WrittenMeans(rows, t, w[i]);
      }
    }
  }

  /** A message posted is the last row, its key new; under a key stored already, the rows stay as they are. */
  lemma AppendMeans(rows: seq<Entry>, key: Key, msg: Message, id: int)
    ensures var r := AppendOne(rows, key, msg, id);
      HasKey(r, key) && r == if exists i :: 0 <= i < |rows| && rows[i].key == key then rows else rows + [Entry(id, key, msg)]
  {
    var r := AppendOne(rows, key, msg, id);
    if r != rows { assert r[|rows|].key == key; }
  }

  lemma SkipsOne(rows: seq<Entry>, t: Turn, from: nat, msgs: seq<Message>, ids: seq<int>)
    requires |ids| == |msgs| && msgs != [] && HasKey(rows, Produced(t, from))
    ensures AppendAll(rows, t, from, msgs, ids) == AppendAll(rows, t, from + 1, msgs[1..], ids[1..])
  {
  }

  lemma SkipsNone(rows: seq<Entry>, t: Turn, from: nat, msgs: seq<Message>, ids: seq<int>)
    requires |ids| == |msgs|
    ensures AppendAll(rows, t, from, msgs, ids) == AppendAll(rows, t, from, msgs[0..], ids[0..])
  {
    assert msgs[0..] == msgs && ids[0..] == ids;
  }

  lemma SkipsAt(rows: seq<Entry>, t: Turn, from: nat, msgs: seq<Message>, ids: seq<int>, k: nat, next: nat, all: seq<Entry>)
    requires |ids| == |msgs| && next == k + 1 <= |msgs| && HasKey(rows, Produced(t, from + k))
    requires all == AppendAll(rows, t, from + k, msgs[k..], ids[k..])
    ensures all == AppendAll(rows, t, from + next, msgs[next..], ids[next..])
  {
    SkipsOne(rows, t, from + k, msgs[k..], ids[k..]);
    assert msgs[k..][1..] == msgs[next..] && ids[k..][1..] == ids[next..];
  }

  ghost predicate Present(rows: seq<Entry>, t: Turn, from: nat, k: nat) {
    forall i :: from <= i < from + k ==> HasKey(rows, Produced(t, i))
  }

  lemma PresentAt(rows: seq<Entry>, t: Turn, from: nat, k: nat)
    requires k > 0 && Present(rows, t, from, k)
    ensures Present(rows, t, from, k - 1) && HasKey(rows, Produced(t, from + (k - 1)))
  {
  }

  lemma {:induction false} Skips(rows: seq<Entry>, t: Turn, from: nat, msgs: seq<Message>, ids: seq<int>, k: nat)
    requires |ids| == |msgs| && k <= |msgs| && Present(rows, t, from, k)
    ensures AppendAll(rows, t, from, msgs, ids) == AppendAll(rows, t, from + k, msgs[k..], ids[k..])
    decreases k
  {
    if k == 0 {
      SkipsNone(rows, t, from, msgs, ids);
    } else {
      PresentAt(rows, t, from, k);
      Skips(rows, t, from, msgs, ids, k - 1);
      SkipsAt(rows, t, from, msgs, ids, k - 1, k, AppendAll(rows, t, from, msgs, ids));
    }
  }

  /** However far the last attempts went, a write stores the messages after them and nothing twice. */
  lemma WritesTheRest(rows: seq<Entry>, t: Turn, stored: nat, from: nat, msgs: seq<Message>, ids: seq<int>, k: nat)
    requires |ids| == |msgs| && from <= stored && StoredTo(rows, t, stored)
    requires k == if stored - from < |msgs| then stored - from else |msgs|
    ensures AppendAll(rows, t, from, msgs, ids) == rows + Fresh(t, from + k, msgs[k..], ids[k..])
  {
    SkipsStored(rows, t, stored, from, msgs, ids, k);
    WritesPast(rows, t, stored, from + k, msgs[k..], ids[k..]);
  }

  lemma SkipsStored(rows: seq<Entry>, t: Turn, stored: nat, from: nat, msgs: seq<Message>, ids: seq<int>, k: nat)
    requires |ids| == |msgs| && k <= |msgs| && from + k <= stored && StoredTo(rows, t, stored)
    ensures AppendAll(rows, t, from, msgs, ids) == AppendAll(rows, t, from + k, msgs[k..], ids[k..])
  {
    Skips(rows, t, from, msgs, ids, k);
  }

  lemma WritesPast(rows: seq<Entry>, t: Turn, stored: nat, from: nat, msgs: seq<Message>, ids: seq<int>)
    requires |ids| == |msgs| && StoredTo(rows, t, stored) && (from == stored || msgs == [])
    ensures AppendAll(rows, t, from, msgs, ids) == rows + Fresh(t, from, msgs, ids)
  {
    if msgs == [] {
      NothingLeft(rows, t, from, msgs, ids);
    } else {
      WritesAll(rows, t, stored, msgs, ids);
    }
  }

  lemma NothingLeft(rows: seq<Entry>, t: Turn, from: nat, msgs: seq<Message>, ids: seq<int>)
    requires |ids| == |msgs| == 0
    ensures AppendAll(rows, t, from, msgs, ids) == rows + Fresh(t, from, msgs, ids)
  {
    assert rows + [] == rows;
  }

  lemma WritesFirst(rows: seq<Entry>, t: Turn, stored: nat, msgs: seq<Message>, ids: seq<int>, e: Entry)
    requires |ids| == |msgs| && msgs != [] && StoredTo(rows, t, stored) && e == Entry(ids[0], Produced(t, stored), msgs[0])
    ensures AppendAll(rows, t, stored, msgs, ids) == AppendAll(rows + [e], t, stored + 1, msgs[1..], ids[1..])
    ensures StoredTo(rows + [e], t, stored + 1)
  {
    OneStored(rows, t, stored, e);
    StoresOne(rows, t, stored, msgs, ids, e);
  }

  lemma Regroup(rows: seq<Entry>, e: Entry, rest: seq<Entry>, all: seq<Entry>)
    requires all == [e] + rest
    ensures rows + [e] + rest == rows + all
  {
  }

  lemma {:induction false} WritesAll(rows: seq<Entry>, t: Turn, stored: nat, msgs: seq<Message>, ids: seq<int>)
    requires |ids| == |msgs| && StoredTo(rows, t, stored)
    ensures AppendAll(rows, t, stored, msgs, ids) == rows + Fresh(t, stored, msgs, ids)
    decreases |msgs|
  {
    if msgs == [] {
      assert rows + [] == rows;
    } else {
      var e := Entry(ids[0], Produced(t, stored), msgs[0]);
      WritesFirst(rows, t, stored, msgs, ids, e);
      WritesAll(rows + [e], t, stored + 1, msgs[1..], ids[1..]);
      FreshParts(t, stored, msgs, ids);
      Regroup(rows, e, Fresh(t, stored + 1, msgs[1..], ids[1..]), Fresh(t, stored, msgs, ids));
    }
  }

  lemma StoresOne(rows: seq<Entry>, t: Turn, from: nat, msgs: seq<Message>, ids: seq<int>, e: Entry)
    requires |ids| == |msgs| && msgs != [] && e == Entry(ids[0], Produced(t, from), msgs[0])
    requires AppendOne(rows, e.key, e.msg, e.id) == rows + [e]
    ensures AppendAll(rows, t, from, msgs, ids) == AppendAll(rows + [e], t, from + 1, msgs[1..], ids[1..])
  {
  }

  lemma FreshParts(t: Turn, start: nat, msgs: seq<Message>, ids: seq<int>)
    requires |ids| == |msgs| && msgs != []
    ensures Fresh(t, start, msgs, ids) == [Entry(ids[0], Produced(t, start), msgs[0])] + Fresh(t, start + 1, msgs[1..], ids[1..])
  {
  }

  lemma OneStored(rows: seq<Entry>, t: Turn, stored: nat, e: Entry)
    requires StoredTo(rows, t, stored) && e.key == Produced(t, stored)
    ensures AppendOne(rows, e.key, e.msg, e.id) == rows + [e] && StoredTo(rows + [e], t, stored + 1)
  {
    forall i ensures HasKey(rows + [e], Produced(t, i)) <==> 0 <= i < stored + 1 {
      HasOneMore(rows, e, Produced(t, i));
    }
  }

  lemma HasOneMore(rows: seq<Entry>, e: Entry, key: Key)
    ensures HasKey(rows + [e], key) <==> HasKey(rows, key) || key == e.key
  {
    if HasKey(rows, key) {
      var k :| 0 <= k < |rows| && rows[k].key == key;
      assert (rows + [e])[k].key == key;
    }
    assert (rows + [e])[|rows|].key == e.key;
  }

  // --- The invariant is kept ---

  /** Rows more go after rows: greater IDs, new keys. */
  ghost predicate Appends(rows: seq<Entry>, next: int, more: seq<Entry>, after: int) {
    && next <= after
    && (forall i :: 0 <= i < |more| ==> next <= more[i].id < after)
    && (forall i, j :: 0 <= i < j < |more| ==> more[i].id < more[j].id && more[i].key != more[j].key)
    && (forall i :: 0 <= i < |more| ==> !HasKey(rows, more[i].key))
  }

  lemma RowsAppended(rows: seq<Entry>, next: int, more: seq<Entry>, after: int)
    requires Ascending(rows, next) && KeysUnique(rows) && Appends(rows, next, more, after)
    ensures Ascending(rows + more, after) && KeysUnique(rows + more)
  {
    var all := rows + more;
    forall i, j | 0 <= i < j < |all| ensures all[i].id < all[j].id && all[i].key != all[j].key {
      if i < |rows| <= j { assert !HasKey(rows, more[j - |rows|].key); }
    }
  }

  lemma BelongAppended(s: Session, more: seq<Entry>, runs: map<Turn, Run>)
    requires OfRuns(s) && runs.Keys == s.runs.Keys
    requires forall i :: 0 <= i < |more| ==> Belongs(more[i], runs)
    ensures OfRuns(Session(s.rows + more, s.next, runs))
  {
    forall i | 0 <= i < |s.rows + more| ensures Belongs((s.rows + more)[i], runs) {
      if i < |s.rows| { assert Belongs(s.rows[i], s.runs); }
    }
  }

  lemma RelaysKept(before: map<Turn, Run>, next: int, runs: map<Turn, Run>, after: int)
    requires Relays(before, next) && next <= after && runs.Keys == before.Keys
    requires forall u :: u in runs ==> runs[u].earlier == before[u].earlier && (WasOver(before[u]) ==> WasOver(runs[u]))
    ensures Relays(runs, after)
  {
    forall u, w | u in runs && w in runs[u].earlier ensures Relayed(runs, w, u) { assert Relayed(before, w, u); }
    assert forall u :: u in runs ==> u in before;
  }

  lemma WrittenNone(more: seq<Entry>, u: Turn)
    requires forall i :: 0 <= i < |more| ==> !(more[i].key.Produced? && more[i].key.turn == u)
    ensures Written(more, u) == []
  {
  }

  /** The same turns later: what they produced, what they read, and over once over. */
  ghost predicate Later(s: Session, runs: map<Turn, Run>) {
    && runs.Keys == s.runs.Keys
    && forall u :: u in runs ==> runs[u] == s.runs[u].(over := runs[u].over) && (s.runs[u].over ==> runs[u].over)
  }

  lemma SameHeld(rows: seq<Entry>, u: Turn, r: Run, over: bool)
    requires StoredRun(rows, u, r)
    ensures StoredRun(rows, u, r.(over := over))
  {
  }

  /** Rows no turn produced leave what is stored of every turn. */
  lemma StoredKept(s: Session, more: seq<Entry>, after: int, runs: map<Turn, Run>)
    requires Stored(s) && Later(s, runs) && forall i :: 0 <= i < |more| ==> !more[i].key.Produced?
    ensures Stored(Session(s.rows + more, after, runs))
  {
    forall u | u in runs ensures StoredRun(s.rows + more, u, runs[u]) {
      WrittenAppended(s.rows, more, u);
      WrittenNone(more, u);
      assert u in s.runs && StoredRun(s.rows, u, s.runs[u]);
      SameHeld(s.rows, u, s.runs[u], runs[u].over);
    }
  }

  /** A row none of the turns produced is appended, or none is, and the turns go on. */
  lemma GoesOn(s: Session, more: seq<Entry>, after: int, runs: map<Turn, Run>)
    requires RowsInv(s) && Later(s, runs) && Appends(s.rows, s.next, more, after)
    requires forall i :: 0 <= i < |more| ==> Belongs(more[i], runs) && !more[i].key.Produced?
    ensures RowsInv(Session(s.rows + more, after, runs))
  {
    RowsAppended(s.rows, s.next, more, after);
    BelongAppended(s, more, runs);
    RelaysKept(s.runs, s.next, runs, after);
    StoredKept(s, more, after, runs);
  }

  lemma OneAppends(rows: seq<Entry>, next: int, key: Key, msg: Message, id: int) returns (more: seq<Entry>)
    requires id >= next
    ensures AppendOne(rows, key, msg, id) == rows + more && Appends(rows, next, more, id + 1)
    ensures more == if KeyIn(rows, key) then [] else [Entry(id, key, msg)]
  {
    more := if KeyIn(rows, key) then [] else [Entry(id, key, msg)];
    assert rows + [] == rows;
  }

  lemma PostKeeps(s: Session, key: Key, msg: Message, id: int)
    requires RowsInv(s) && key.Writer() == None && msg.calls == [] && msg.result == None && id >= s.next
    ensures RowsInv(Session(AppendOne(s.rows, key, msg, id), id + 1, s.runs))
  {
    var more := OneAppends(s.rows, s.next, key, msg, id);
    GoesOn(s, more, id + 1, s.runs);
  }

  lemma Ends(s: Session, t: Turn, more: seq<Entry>, id: int, runs: map<Turn, Run>)
    requires RowsInv(s) && t.anchor < s.next && Appends(s.rows, s.next, more, id + 1)
    requires forall i :: 0 <= i < |more| ==> more[i].key == End(t)
    requires Later(s, runs)
    ensures RowsInv(Session(s.rows + more, id + 1, runs))
  {
    GoesOn(s, more, id + 1, runs);
  }

  lemma AnchorBefore(s: Session, t: Turn)
    requires Ascending(s.rows, s.next) && AnchorIn(s.rows, t.anchor)
    ensures t.anchor < s.next
  {
  }

  lemma DropKeeps(s: Session, t: Turn, msg: Message, id: int)
    requires RowsInv(s) && AnchorIn(s.rows, t.anchor) && id >= s.next
    ensures RowsInv(Session(AppendOne(s.rows, End(t), msg, id), id + 1, s.runs))
  {
    AnchorBefore(s, t);
    var more := OneAppends(s.rows, s.next, End(t), msg, id);
    Ends(s, t, more, id, s.runs);
  }

  lemma OverIsLater(s: Session, t: Turn)
    requires t in s.runs
    ensures Later(s, s.runs[t := s.runs[t].(over := true)])
  {
  }

  lemma FinishKeeps(s: Session, t: Turn, end: Option<Message>, id: int, rows: seq<Entry>)
    requires RowsInv(s) && Active(s, t) && id >= s.next
    requires rows == if end.Some? then AppendOne(s.rows, End(t), end.value, id) else s.rows
    ensures RowsInv(Session(rows, id + 1, s.runs[t := s.runs[t].(over := true)]))
  {
    OverIsLater(s, t);
    var more: seq<Entry> := [];
    if end.Some? { more := OneAppends(s.rows, s.next, End(t), end.value, id); }
    assert rows == s.rows + more;
    Ends(s, t, more, id, s.runs[t := s.runs[t].(over := true)]);
  }

  /** A turn goes on without writing. */
  lemma RunUpdated(s: Session, t: Turn, r: Run, next: Session)
    requires RowsInv(s) && Active(s, t) && r.earlier == s.runs[t].earlier && r.again == s.runs[t].again && !r.over && StoredRun(s.rows, t, r)
    requires next == s.(runs := s.runs[t := r])
    ensures RowsInv(next)
  {
    BelongAppended(s, [], next.runs);
    assert s.rows + [] == s.rows;
    RelaysKept(s.runs, s.next, next.runs, s.next);
    assert forall u :: u in s.runs ==> StoredRun(s.rows, u, s.runs[u]);
  }

  lemma ConfirmKeeps(s: Session, t: Turn, upTo: nat)
    requires RowsInv(s) && Active(s, t) && upTo <= |Written(s.rows, t)| && upTo <= |s.runs[t].msgs|
    ensures RowsInv(s.(runs := s.runs[t := s.runs[t].(told := upTo)]))
  {
    var r := s.runs[t].(told := upTo);
    assert StoredRun(s.rows, t, s.runs[t]);
    assert Held(r) == Held(s.runs[t]);
    RunUpdated(s, t, r, s.(runs := s.runs[t := r]));
  }

  /** What is stored of a turn not begun yet: nothing. */
  lemma NoRows(s: Session, t: Turn)
    requires OfRuns(s) && t !in s.runs
    ensures Written(s.rows, t) == []
  {
    forall i | 0 <= i < |s.rows| ensures !(s.rows[i].key.Produced? && s.rows[i].key.turn == t) { assert Belongs(s.rows[i], s.runs); }
    WrittenNone(s.rows, t);
  }

  lemma BegunStored(s: Session, t: Turn, r: Run)
    requires RowsInv(s) && r.kept == Msgs(Written(s.rows, t)) && r.msgs == [] && r.told == 0
    ensures StoredRun(s.rows, t, r)
  {
    if t in s.runs { assert StoredRun(s.rows, t, s.runs[t]); } else { NoRows(s, t); }
    assert Held(r) == r.kept;
  }

  lemma BegunRows(s: Session, t: Turn, runs: map<Turn, Run>)
    requires OfRuns(s) && Stored(s) && t in runs && runs == s.runs[t := runs[t]] && StoredRun(s.rows, t, runs[t])
    ensures OfRuns(s.(runs := runs)) && Stored(s.(runs := runs))
  {
    forall u | u in runs ensures StoredRun(s.rows, u, runs[u]) {
      if u != t { assert StoredRun(s.rows, u, s.runs[u]); }
    }
    forall i | 0 <= i < |s.rows| ensures Belongs(s.rows[i], runs) { assert Belongs(s.rows[i], s.runs); }
  }

  lemma BeginKeeps(s: Session, e: Event)
    requires RowsInv(s) && Enabled(s, e) && e.Begin?
    ensures RowsInv(Apply(s, e))
  {
    var t, r, runs := e.turn, Begun(s, e.turn, e.agent, e.user, e.earlier), Apply(s, e).runs;
    AnchorBefore(s, t);
    BegunStored(s, t, r);
    BegunRows(s, t, runs);
    forall u, w | u in runs && w in runs[u].earlier ensures Relayed(runs, w, u) {
      if u != t { assert Relayed(s.runs, w, u); }
    }
    forall u | u in runs ensures u.anchor < s.next { if u != t { assert u in s.runs; } }
  }

  /** A turn that goes on keeps what its keys stood for. */
  lemma HeldGrows(r: Run, batch: seq<Message>, q: Run)
    requires q.kept == r.kept && q.msgs == r.msgs + batch
    ensures Held(r) <= Held(q)
  {
  }

  lemma ProducedStored(rows: seq<Entry>, t: Turn, r: Run, batch: seq<Message>, q: Run)
    requires StoredRun(rows, t, r) && Scan(batch) == Some([])
    requires q.kept == r.kept && q.msgs == r.msgs + batch && q.told == r.told
    ensures StoredRun(rows, t, q)
  {
    var w := Written(rows, t);
    HeldGrows(r, batch, q);
    ScanSplit(r.msgs, batch);
    if |r.kept| < |w| { assert q.msgs[..|w|] == r.msgs[..|w|]; }
  }

  lemma ProducedRows(s: Session, t: Turn, batch: seq<Message>, q: Run)
    requires RowsInv(s) && Active(s, t) && Scan(batch) == Some([])
    requires q == s.runs[t].(msgs := s.runs[t].msgs + batch, made := q.made)
    ensures RowsInv(s.(runs := s.runs[t := q]))
  {
    assert StoredRun(s.rows, t, s.runs[t]);
    ProducedStored(s.rows, t, s.runs[t], batch, q);
    RunUpdated(s, t, q, s.(runs := s.runs[t := q]));
  }

  /** The rows more are the messages of t from the stored ones up to upTo. */
  ghost predicate TheNext(stored: nat, t: Turn, msgs: seq<Message>, upTo: nat, more: seq<Entry>)
    requires upTo <= |msgs|
  {
    && |more| == (if stored < upTo then upTo - stored else 0)
    && (forall i :: 0 <= i < |more| ==> more[i].key == Produced(t, stored + i) && more[i].msg == msgs[stored + i])
  }

  lemma {:induction false} WrittenBy(more: seq<Entry>, t: Turn, u: Turn)
    requires forall i :: 0 <= i < |more| ==> more[i].key.Produced? && more[i].key.turn == t
    ensures Written(more, u) == if u == t then more else []
  {
    if more != [] { WrittenBy(more[..|more| - 1], t, u); }
  }

  lemma FreshAppends(rows: seq<Entry>, next: int, t: Turn, stored: nat, msgs: seq<Message>, ids: seq<int>, after: int)
    requires |ids| == |msgs| && StoredTo(rows, t, stored) && Ids(ids, next) && next <= after
    requires ids != [] ==> after == ids[|ids| - 1] + 1
    ensures Appends(rows, next, Fresh(t, stored, msgs, ids), after)
  {
    var more := Fresh(t, stored, msgs, ids);
    forall i | 0 <= i < |more| ensures !HasKey(rows, more[i].key) && next <= more[i].id < after {
      assert !HasKey(rows, Produced(t, stored + i));
    }
  }

  lemma FreshIsNext(stored: nat, t: Turn, from: nat, upTo: nat, msgs: seq<Message>, ids: seq<int>, k: nat)
    requires from <= stored && from <= upTo <= |msgs| && |ids| == upTo - from
    requires k == if stored - from < |ids| then stored - from else |ids|
    ensures TheNext(stored, t, msgs, upTo, Fresh(t, from + k, msgs[from..upTo][k..], ids[k..]))
  {
  }

  lemma IdsFrom(ids: seq<int>, next: int, k: nat)
    requires Ids(ids, next) && k < |ids|
    ensures Ids(ids[k..], next) && ids[k..][|ids[k..]| - 1] + 1 == NextId(next, ids) && next <= NextId(next, ids)
  {
  }

  lemma RestAppends(rows: seq<Entry>, next: int, t: Turn, stored: nat, batch: seq<Message>, ids: seq<int>, k: nat)
    requires |ids| == |batch| && k < |batch| && StoredTo(rows, t, stored) && Ids(ids, next)
    ensures Appends(rows, next, Fresh(t, stored, batch[k..], ids[k..]), NextId(next, ids))
  {
    IdsFrom(ids, next, k);
    FreshAppends(rows, next, t, stored, batch[k..], ids[k..], NextId(next, ids));
  }

  lemma WritesFrom(rows: seq<Entry>, t: Turn, stored: nat, from: nat, batch: seq<Message>, ids: seq<int>)
    requires |ids| == |batch| && from <= stored < from + |batch| && StoredTo(rows, t, stored)
    ensures AppendAll(rows, t, from, batch, ids) == rows + Fresh(t, stored, batch[stored - from..], ids[stored - from..])
  {
    WritesTheRest(rows, t, stored, from, batch, ids, stored - from);
  }

  /** A write past what is stored adds the rest of its messages. */
  lemma WritesNew(rows: seq<Entry>, next: int, t: Turn, stored: nat, from: nat, upTo: nat, msgs: seq<Message>, ids: seq<int>) returns (more: seq<Entry>)
    requires StoredTo(rows, t, stored) && from <= stored < upTo <= |msgs|
    requires |ids| == upTo - from && Ids(ids, next)
    ensures AppendAll(rows, t, from, msgs[from..upTo], ids) == rows + more
    ensures Appends(rows, next, more, NextId(next, ids)) && TheNext(stored, t, msgs, upTo, more)
  {
    var batch, k := msgs[from..upTo], stored - from;
    more := Fresh(t, stored, batch[k..], ids[k..]);
    WritesFrom(rows, t, stored, from, batch, ids);
    RestAppends(rows, next, t, stored, batch, ids, k);
    FreshIsNext(stored, t, from, upTo, msgs, ids, k);
  }

  /** One within it adds nothing. */
  lemma WritesNothing(rows: seq<Entry>, t: Turn, stored: nat, from: nat, upTo: nat, msgs: seq<Message>, ids: seq<int>)
    requires StoredTo(rows, t, stored) && from <= upTo <= stored && upTo <= |msgs| && |ids| == upTo - from
    ensures AppendAll(rows, t, from, msgs[from..upTo], ids) == rows
  {
    var batch := msgs[from..upTo];
    WritesTheRest(rows, t, stored, from, batch, ids, |batch|);
    assert Fresh(t, from + |batch|, batch[|batch|..], ids[|batch|..]) == [];
    assert rows + [] == rows;
  }

  /** What a write adds when a turn's first stored messages are stored. */
  lemma Writes(rows: seq<Entry>, next: int, t: Turn, stored: nat, from: nat, upTo: nat, msgs: seq<Message>, ids: seq<int>) returns (more: seq<Entry>)
    requires StoredTo(rows, t, stored) && from <= stored && from <= upTo <= |msgs|
    requires |ids| == upTo - from && Ids(ids, next)
    ensures AppendAll(rows, t, from, msgs[from..upTo], ids) == rows + more
    ensures Appends(rows, next, more, NextId(next, ids)) && TheNext(stored, t, msgs, upTo, more)
  {
    if stored < upTo {
      more := WritesNew(rows, next, t, stored, from, upTo, msgs, ids);
    } else {
      more := [];
      WritesNothing(rows, t, stored, from, upTo, msgs, ids);
      assert rows + [] == rows;
    }
  }

  lemma MoreBegins(w: seq<Entry>, t: Turn, r: Run, upTo: nat, more: seq<Entry>)
    requires Begins(w, t, r) && upTo <= |r.msgs| && Scan(r.msgs[..upTo]) == Some([]) && TheNext(|w|, t, r.msgs, upTo, more)
    ensures Begins(w + more, t, r)
  {
    if more == [] { assert w + more == w; } else { assert |w + more| == upTo; }
    forall i | |w| <= i < |w + more| ensures (w + more)[i].msg == Held(r)[i] { assert Held(r)[i] == r.msgs[i]; }
  }

  lemma StoredMore(rows: seq<Entry>, t: Turn, r: Run, upTo: nat, more: seq<Entry>, u: Turn, q: Run)
    requires StoredRun(rows, u, q) && (u == t ==> q == r)
    requires upTo <= |r.msgs| && Scan(r.msgs[..upTo]) == Some([]) && TheNext(|Written(rows, t)|, t, r.msgs, upTo, more)
    ensures StoredRun(rows + more, u, q)
  {
    WrittenAppended(rows, more, u);
    WrittenBy(more, t, u);
    if u == t {
      MoreBegins(Written(rows, t), t, r, upTo, more);
    } else {
      assert Written(rows, u) + [] == Written(rows, u);
    }
  }

  lemma WrittenRows(s: Session, t: Turn, upTo: nat, more: seq<Entry>, after: int)
    requires RowsInv(s) && Active(s, t) && upTo <= |s.runs[t].msgs| && Scan(s.runs[t].msgs[..upTo]) == Some([])
    requires Appends(s.rows, s.next, more, after) && TheNext(|Written(s.rows, t)|, t, s.runs[t].msgs, upTo, more)
    ensures RowsInv(Session(s.rows + more, after, s.runs))
  {
    assert t.anchor < s.next;
    RowsAppended(s.rows, s.next, more, after);
    BelongAppended(s, more, s.runs);
    RelaysKept(s.runs, s.next, s.runs, after);
    forall u | u in s.runs ensures StoredRun(s.rows + more, u, s.runs[u]) {
      StoredMore(s.rows, t, s.runs[t], upTo, more, u, s.runs[u]);
    }
  }

  lemma WriteKeeps(s: Session, t: Turn, from: nat, upTo: nat, ids: seq<int>)
    requires RowsInv(s) && Active(s, t) && from <= |Written(s.rows, t)| && from <= upTo <= |s.runs[t].msgs|
    requires Scan(s.runs[t].msgs[..upTo]) == Some([]) && |ids| == upTo - from && Ids(ids, s.next)
    ensures RowsInv(s.(rows := AppendAll(s.rows, t, from, s.runs[t].msgs[from..upTo], ids), next := NextId(s.next, ids)))
  {
    assert StoredRun(s.rows, t, s.runs[t]);
    StoredKeys(s.rows, t, s.runs[t]);
    var more := Writes(s.rows, s.next, t, |Written(s.rows, t)|, from, upTo, s.runs[t].msgs, ids);
    WrittenRows(s, t, upTo, more, NextId(s.next, ids));
  }

  /** A turn's run but what it knows and whether it is over. */
  predicate SameTurn(r: Run, q: Run) { q == r.(told := q.told, over := q.over) }

  lemma RunsGoOn(runs: map<Turn, Run>, after: map<Turn, Run>)
    requires RunsInv(runs) && after.Keys == runs.Keys
    requires forall u :: u in runs ==> SameTurn(runs[u], after[u]) && (runs[u].over ==> after[u].over)
    ensures RunsInv(after)
  {
    forall u | u in after ensures Told(after[u]) == Told(runs[u]) && OwnCalls(after[u]) {
      assert u in runs && SameTurn(runs[u], after[u]) && OwnCalls(runs[u]);
    }
    forall u, w | u in after && w in after && u != w ensures after[u].made !! after[w].made {
      assert SameTurn(runs[u], after[u]) && SameTurn(runs[w], after[w]);
    }
    forall u, i | u in after && 0 <= i < |Told(after[u])| ensures Signed(Told(after[u])[i], after[u]) {
      assert SameTurn(runs[u], after[u]) && Signed(Told(runs[u])[i], runs[u]);
    }
  }

  lemma MadeInEither(a: seq<Message>, b: seq<Message>, id: string)
    ensures MadeIn(a + b, id) <==> MadeIn(a, id) || MadeIn(b, id)
  {
    var all := a + b;
    if MadeIn(a, id) {
      var i, j :| 0 <= i < |a| && 0 <= j < |a[i].calls| && a[i].calls[j].id == id;
      assert all[i].calls[j].id == id;
    }
    if MadeIn(b, id) {
      var i, j :| 0 <= i < |b| && 0 <= j < |b[i].calls| && b[i].calls[j].id == id;
      assert all[|a| + i].calls[j].id == id;
    }
    if MadeIn(all, id) {
      var i, j :| 0 <= i < |all| && 0 <= j < |all[i].calls| && all[i].calls[j].id == id;
      if i < |a| { assert a[i].calls[j].id == id; } else { assert b[i - |a|].calls[j].id == id; }
    }
  }

  /** A message's calls are its own: the two parts share none. */
  lemma PlacesApart(a: seq<Message>, b: seq<Message>, i: nat, j: nat, k: nat, l: nat)
    requires forall id :: MadeIn(b, id) ==> !MadeIn(a, id)
    requires i < |a| && j < |a[i].calls| && k < |b| && l < |b[k].calls|
    ensures a[i].calls[j].id != b[k].calls[l].id
  {
    assert MadeIn(a, a[i].calls[j].id) && MadeIn(b, b[k].calls[l].id);
  }

  lemma JoinedCalls(a: seq<Message>, b: seq<Message>)
    requires UniqueCalls(a) && UniqueCalls(b) && forall id :: MadeIn(b, id) ==> !MadeIn(a, id)
    ensures UniqueCalls(a + b) && forall id :: MadeIn(a + b, id) <==> MadeIn(a, id) || MadeIn(b, id)
  {
    var all := a + b;
    forall i, j, k, l | 0 <= i < |all| && 0 <= j < |all[i].calls| && 0 <= k < |all| && 0 <= l < |all[k].calls| && all[i].calls[j].id == all[k].calls[l].id
      ensures i == k && j == l
    {
      if i < |a| <= k { PlacesApart(a, b, i, j, k - |a|, l); }
      if k < |a| <= i { PlacesApart(a, b, k, l, i - |a|, j); }
      if i >= |a| && k >= |a| { assert all[i] == b[i - |a|] && all[k] == b[k - |a|]; }
    }
    forall id ensures MadeIn(all, id) <==> MadeIn(a, id) || MadeIn(b, id) { MadeInEither(a, b, id); }
  }

  /** A result comes after the call it answers. */
  lemma ResultFollowsCall(ms: seq<Message>, k: nat) returns (i: nat)
    requires Scan(ms).Some? && k < |ms| && ms[k].result.Some?
    ensures i < k && ms[k].result.value.callId in CallIds(ms[i].calls) && MadeIn(ms, ms[k].result.value.callId)
  {
    ScanPrefix(ms, k + 1);
    assert ms[..k + 1][..k] == ms[..k];
    ScanPrefix(ms, k);
    var j: nat;
    i, j := PendingFrom(ms[..k]);
    assert ms[k].result.value.callId == CallIds(ms[i].calls)[j..][0];
    assert ms[i].calls[j].id == ms[k].result.value.callId;
  }

  /** A turn's batch makes calls of its own and answers them. */
  lemma OwnBatch(r: Run, batch: seq<Message>, q: Run)
    requires OwnCalls(r) && UniqueCalls(batch) && Scan(batch) == Some([]) && forall id :: MadeIn(batch, id) ==> id !in r.made
    requires q.kept == r.kept && q.msgs == r.msgs + batch && q.made == r.made + CallsMade(batch)
    ensures OwnCalls(q)
  {
    assert Told(q) == Told(r) + batch;
    JoinedCalls(Told(r), batch);
    forall i | 0 <= i < |Told(q)| && Told(q)[i].result.Some? ensures Told(q)[i].result.value.callId in q.made {
      if i < |Told(r)| { assert Told(q)[i] == Told(r)[i]; } else { var k := ResultFollowsCall(batch, i - |Told(r)|); }
    }
  }

  lemma RunsProduce(s: Session, e: Event)
    requires RunsInv(s.runs) && Enabled(s, e) && e.Produce?
    ensures RunsInv(Apply(s, e).runs)
  {
    var t, r, q := e.turn, s.runs[e.turn], Apply(s, e).runs[e.turn];
    OwnBatch(r, e.batch, q);
    forall i | 0 <= i < |Told(q)| ensures Signed(Told(q)[i], q) {
      if i < |Told(r)| { assert Signed(Told(r)[i], r); }
    }
    RunsPut(s.runs, t, q);
  }

  /** Messages found among others, each in its place, make their calls once too. */
  lemma CallsOfSome(ms: seq<Message>, all: seq<Message>, at: seq<nat>)
    requires UniqueCalls(all) && |at| == |ms| && forall i :: 0 <= i < |ms| ==> at[i] < |all| && ms[i] == all[at[i]]
    requires forall i, j :: 0 <= i < j < |at| ==> at[i] != at[j]
    ensures UniqueCalls(ms)
  {
    forall i, j, k, l | 0 <= i < |ms| && 0 <= j < |ms[i].calls| && 0 <= k < |ms| && 0 <= l < |ms[k].calls| && ms[i].calls[j].id == ms[k].calls[l].id
      ensures i == k && j == l
    {
      assert all[at[i]].calls[j].id == all[at[k]].calls[l].id;
    }
  }

  /** Where a message its keys stand for is among those of the turn. */
  function AtIn(r: Run, i: nat): nat { if i < |r.kept| then i else |r.kept| + i }

  lemma HeldIsTold(r: Run, i: nat)
    requires i < |Held(r)|
    ensures AtIn(r, i) < |Told(r)| && Held(r)[i] == Told(r)[AtIn(r, i)]
  {
  }

  /** What a turn begun again finds stored is its own, as far as calls go. */
  lemma KeptCalls(r: Run, q: Run)
    requires OwnCalls(r) && q.kept <= Held(r) && q.msgs == [] && q.made == r.made
    ensures OwnCalls(q)
  {
    assert Told(q) == q.kept;
    var at := seq(|q.kept|, i requires 0 <= i < |q.kept| => AtIn(r, i));
    forall i | 0 <= i < |q.kept| ensures at[i] < |Told(r)| && q.kept[i] == Told(r)[at[i]] { HeldIsTold(r, i); }
    CallsOfSome(q.kept, Told(r), at);
    forall id | MadeIn(q.kept, id) ensures id in r.made {
      var i, j :| 0 <= i < |q.kept| && 0 <= j < |q.kept[i].calls| && q.kept[i].calls[j].id == id;
      assert Told(r)[at[i]].calls[j].id == id;
    }
  }

  lemma KeptIsHeld(s: Session, t: Turn)
    requires Stored(s) && t in s.runs
    ensures Msgs(Written(s.rows, t)) <= Held(s.runs[t])
  {
    assert StoredRun(s.rows, t, s.runs[t]);
  }

  lemma BegunCalls(s: Session, t: Turn, q: Run)
    requires RowsInv(s) && RunsInv(s.runs) && q == Begun(s, t, q.agent, q.user, q.earlier)
    requires t in s.runs ==> q.agent == s.runs[t].agent && q.user == s.runs[t].user
    ensures OwnCalls(q) && forall i :: 0 <= i < |Told(q)| ==> Signed(Told(q)[i], q)
  {
    if t in s.runs {
      KeptIsHeld(s, t);
      KeptCalls(s.runs[t], q);
      forall i | 0 <= i < |Told(q)| ensures Signed(Told(q)[i], q) {
        HeldIsTold(s.runs[t], i);
        assert Signed(Told(s.runs[t])[AtIn(s.runs[t], i)], s.runs[t]);
      }
    } else {
      NoRows(s, t);
      assert Told(q) == [];
    }
  }

  /** One turn's run put in place of another's, or added, as the others are. */
  lemma RunsPut(runs: map<Turn, Run>, t: Turn, q: Run)
    requires SignedRuns(runs) && CallsOnce(runs) && OwnCalls(q)
    requires forall i :: 0 <= i < |Told(q)| ==> Signed(Told(q)[i], q)
    requires forall u :: u in runs && u != t ==> runs[u].made !! q.made
    ensures SignedRuns(runs[t := q]) && CallsOnce(runs[t := q])
  {
    var after := runs[t := q];
    forall u, i | u in after && 0 <= i < |Told(after[u])| ensures Signed(Told(after[u])[i], after[u]) {
      if u != t { assert Signed(Told(runs[u])[i], runs[u]); }
    }
    forall u | u in after ensures OwnCalls(after[u]) { if u != t { assert OwnCalls(runs[u]); } }
    forall u, w | u in after && w in after && u != w ensures after[u].made !! after[w].made {
      if u != t && w != t { assert runs[u].made !! runs[w].made; }
    }
  }

  lemma RunsBegin(s: Session, e: Event)
    requires RowsInv(s) && RunsInv(s.runs) && Enabled(s, e) && e.Begin?
    ensures RunsInv(Apply(s, e).runs)
  {
    var t, q := e.turn, Begun(s, e.turn, e.agent, e.user, e.earlier);
    BegunCalls(s, t, q);
    RunsPut(s.runs, t, q);
    forall u, w | u in s.runs[t := q] && w in s.runs[t := q] && !s.runs[t := q][u].over && !s.runs[t := q][w].over && u.participant == w.participant
      ensures u == w
    {
      if u != t { assert Active(s, u); }
      if w != t { assert Active(s, w); }
    }
  }

  lemma Goes(s: Session, e: Event)
    requires Enabled(s, e) && !e.Produce? && !e.Begin?
    ensures var after := Apply(s, e).runs;
      after.Keys == s.runs.Keys && forall u :: u in s.runs ==> SameTurn(s.runs[u], after[u]) && (s.runs[u].over ==> after[u].over)
  {
  }

  lemma RunsStep(s: Session, e: Event)
    requires Inv(s) && Enabled(s, e)
    ensures RunsInv(Apply(s, e).runs)
  {
    if e.Produce? {
      RunsProduce(s, e);
    } else if e.Begin? {
      RunsBegin(s, e);
    } else {
      Goes(s, e);
      RunsGoOn(s.runs, Apply(s, e).runs);
    }
  }

  lemma PostRows(s: Session, e: Event)
    requires RowsInv(s) && Enabled(s, e) && e.Post?
    ensures RowsInv(Apply(s, e))
  {
    PostKeeps(s, e.key, e.msg, e.id);
  }

  lemma DropRows(s: Session, e: Event)
    requires RowsInv(s) && Enabled(s, e) && e.Drop?
    ensures RowsInv(Apply(s, e))
  {
    DropKeeps(s, e.turn, e.msg, e.id);
  }

  lemma FinishRows(s: Session, e: Event)
    requires RowsInv(s) && Enabled(s, e) && e.Finish?
    ensures RowsInv(Apply(s, e))
  {
    FinishKeeps(s, e.turn, e.end, e.id, Apply(s, e).rows);
  }

  lemma RowsStep(s: Session, e: Event)
    requires RowsInv(s) && Enabled(s, e)
    ensures RowsInv(Apply(s, e))
  {
    match e
    case Post(_, _, _) => PostRows(s, e);
    case Begin(_, _, _, _) => BeginKeeps(s, e);
    case Produce(t, batch) => ProducedRows(s, t, batch, Apply(s, e).runs[t]);
    case Write(t, from, upTo, ids) => WriteKeeps(s, t, from, upTo, ids);
    case Confirm(t, upTo) => ConfirmKeeps(s, t, upTo);
    case Finish(_, _, _) => FinishRows(s, e);
    case Drop(_, _, _) => DropRows(s, e);
  }

  lemma StepKeeps(s: Session, e: Event)
    requires Inv(s) && Enabled(s, e)
    ensures Inv(Apply(s, e))
  {
    RowsStep(s, e);
    RunsStep(s, e);
  }

  /** Every state of every run is as the invariant says. */
  lemma {:induction false} RunKeeps(s: Session, es: seq<Event>, last: Session)
    requires Inv(s) && Reaches(s, es, last)
    ensures Inv(last)
    decreases |es|
  {
    if es != [] {
      StepKeeps(s, es[0]);
      RunKeeps(Apply(s, es[0]), es[1..], last);
    }
  }

  // --- What is stored stays ---

  lemma {:induction false} AppendExtends(rows: seq<Entry>, t: Turn, start: nat, msgs: seq<Message>, ids: seq<int>)
    requires |ids| == |msgs|
    ensures rows <= AppendAll(rows, t, start, msgs, ids)
    decreases |msgs|
  {
    if msgs != [] {
      var one := AppendOne(rows, Produced(t, start), msgs[0], ids[0]);
      assert rows <= one;
      AppendExtends(one, t, start + 1, msgs[1..], ids[1..]);
    }
  }

  lemma RowsGrow(s: Session, e: Event)
    requires Enabled(s, e)
    ensures s.rows <= Apply(s, e).rows
  {
    if e.Write? { AppendExtends(s.rows, e.turn, e.from, s.runs[e.turn].msgs[e.from..e.upTo], e.ids); }
  }

  lemma RowsBetween(a: seq<Entry>, b: seq<Entry>, c: seq<Entry>)
    requires a <= b && b <= c
    ensures a <= c
  {
  }

  lemma {:induction false} RunGrows(s: Session, es: seq<Event>, last: Session)
    requires Inv(s) && Reaches(s, es, last)
    ensures Inv(last) && s.rows <= last.rows
    decreases |es|
  {
    if es != [] {
      StepKeeps(s, es[0]);
      RowsGrow(s, es[0]);
      RunGrows(Apply(s, es[0]), es[1..], last);
      RowsBetween(s.rows, Apply(s, es[0]).rows, last.rows);
    }
  }

  /** Over every run, a key stands for the row first written under it, whoever writes under it again. */
  lemma FirstWriteStays(first: seq<Event>, s: Session, es: seq<Event>, last: Session, i: nat, j: nat)
    requires Reaches(EMPTY, first, s) && Reaches(s, es, last) && i < |s.rows| && j < |last.rows|
    ensures i < |last.rows| && last.rows[i] == s.rows[i] && (last.rows[j].key == s.rows[i].key ==> j == i)
  {
    RunKeeps(EMPTY, first, s);
    RunGrows(s, es, last);
  }
}
