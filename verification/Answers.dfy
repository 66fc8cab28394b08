/** Each call next to its results, in what every call of a turn reads (conversation/convert.go), and when a
    result is read without its call. */
module Answers {
  import opened Text
  import opened Keys
  import opened Messages
  import opened Sorting
  import opened Order
  import opened Scope
  import opened Session
  import opened Convert
  import opened Reading
  import opened Conversation

  /** Order's gathering, of any messages. */
  lemma {:induction false} Gathers(ms: seq<Entry>) returns (plain: seq<Entry>, blocks: seq<Block>, byTurn: map<Turn, nat>)
    ensures GatheredAll(plain, blocks, byTurn, ms)
  {
    if ms == [] {
      plain, blocks, byTurn := [], [], map[];
      GatherNothing();
    } else {
      var n := |ms| - 1;
      var m := ms[n];
      plain, blocks, byTurn := Gathers(ms[..n]);
      assert ms == ms[..n] + [m];
      match m.key.Writer() {
        case None =>
          GatherPlain(plain, blocks, byTurn, ms[..n], m);
          plain := plain + [m];
        case Some(t) =>
          if t in byTurn {
            var more := blocks[byTurn[t] := Extend(blocks[byTurn[t]], m)];
            GatherMore(plain, blocks, byTurn, ms[..n], m, more);
            blocks := more;
          } else {
            var more := blocks + [Block.Block(t, t.anchor, m.id, [m])];
            GatherFirst(plain, blocks, byTurn, ms[..n], m, t, more);
            byTurn, blocks := byTurn[t := |blocks|], more;
          }
      }
    }
  }

  predicate NoCalls(m: Message) { m.calls == [] && m.result == None }

  lemma ScanOne(m: Message)
    requires NoCalls(m)
    ensures Scan([m]) == Some([])
  {
    assert [m][..0] == [];
    assert CallIds([]) == [];
  }

  /** Whole turns between messages that make no call scan as the turns do. */
  lemma {:induction false} MergeScans(plain: seq<Entry>, blocks: seq<Block>)
    requires forall i :: 0 <= i < |plain| ==> NoCalls(plain[i].msg)
    requires forall k :: 0 <= k < |blocks| ==> Scan(Msgs(SortedBlock(blocks[k]))) == Some([])
    ensures Scan(Msgs(Merge(plain, blocks))) == Some([])
    decreases |plain| + |blocks|
  {
    if blocks != [] && (plain == [] || blocks[0].anchor < plain[0].id) {
      MergeScans(plain, blocks[1..]);
      MsgsOfBoth(SortedBlock(blocks[0]), Merge(plain, blocks[1..]));
      ScanSplit(Msgs(SortedBlock(blocks[0])), Msgs(Merge(plain, blocks[1..])));
    } else if plain != [] {
      MergeScans(plain[1..], blocks);
      MsgsOfBoth([plain[0]], Merge(plain[1..], blocks));
      assert Msgs([plain[0]]) == [plain[0].msg];
      ScanOne(plain[0].msg);
      ScanSplit([plain[0].msg], Msgs(Merge(plain[1..], blocks)));
    }
  }

  // --- Where what is read comes from ---

  lemma LoadedIsStored(s: Session, t: Turn, p: nat)
    requires t in s.runs && p < |LoadedOf(s, t)|
    ensures Ordered(LoadedOf(s, t))[p] in s.rows && !Ordered(LoadedOf(s, t))[p].key.End?
  {
    var e := Ordered(LoadedOf(s, t))[p];
    assert e in multiset(LoadedOf(s, t));
    LoadedMeans(s.rows, t, s.runs[t].earlier, EndIds(s.rows), e);
  }

  /** A row no turn wrote makes no call; a turn's is one its keys stand for. */
  lemma RowOrigin(s: Session, e: Entry)
    requires RowsInv(s) && e in s.rows && !e.key.End?
    ensures e.key.Writer().None? ==> NoCalls(e.msg)
    ensures e.key.Produced? ==>
      var u, i := e.key.turn, e.key.index;
      u in s.runs && 0 <= i < |Written(s.rows, u)| <= |Held(s.runs[u])| && e.msg == Held(s.runs[u])[i]
  {
    var k :| 0 <= k < |s.rows| && s.rows[k] == e;
    assert Belongs(s.rows[k], s.runs);
    if e.key.Produced? {
      var u := e.key.turn;
      WrittenMeans(s.rows, u, e);
      StoredBegins(s, u);
      var j :| 0 <= j < |Written(s.rows, u)| && Written(s.rows, u)[j] == e;
    }
  }

  /** The p-th message a call of t reads, m, is the i-th its turn's keys stand for, u's: stored, or of t's tail. */
  ghost predicate ComesFrom(s: Session, t: Turn, p: nat, m: Message, u: Turn, i: nat)
    requires t in s.runs
  {
    var n := |LoadedOf(s, t)|;
    && u in s.runs && i < |Held(s.runs[u])| && m == Held(s.runs[u])[i]
    && (if p < n then i < |Written(s.rows, u)| && Ordered(LoadedOf(s, t))[p].key == Produced(u, i)
        else u == t && i == |Written(s.rows, t)| + p - n)
  }

  lemma PastHeld(r: Run, k: nat, j: nat)
    requires |r.kept| <= k && j < |Past(r.msgs, k)|
    ensures k + j < |Held(r)| && Held(r)[k + j] == Past(r.msgs, k)[j]
  {
  }

  lemma StoredOrigin(s: Session, t: Turn, p: nat) returns (u: Turn, i: nat)
    requires RowsInv(s) && t in s.runs && p < |LoadedOf(s, t)|
    ensures var m := Ordered(LoadedOf(s, t))[p].msg; !NoCalls(m) ==> ComesFrom(s, t, p, m, u, i)
  {
    LoadedIsStored(s, t, p);
    RowOrigin(s, Ordered(LoadedOf(s, t))[p]);
    var key := Ordered(LoadedOf(s, t))[p].key;
    if key.Produced? { u, i := key.turn, key.index; } else { u, i := t, 0; }
  }

  lemma TailOrigin(s: Session, t: Turn, j: nat)
    requires RowsInv(s) && t in s.runs && j < |Past(s.runs[t].msgs, |Written(s.rows, t)|)|
    ensures ComesFrom(s, t, |LoadedOf(s, t)| + j, Past(s.runs[t].msgs, |Written(s.rows, t)|)[j], t, |Written(s.rows, t)| + j)
  {
    StoredBegins(s, t);
    PastHeld(s.runs[t], |Written(s.rows, t)|, j);
  }

  lemma ReadLength(s: Session, t: Turn)
    requires t in s.runs
    ensures |ReadSplit(s, t)| == |LoadedOf(s, t)| + |Past(s.runs[t].msgs, |Written(s.rows, t)|)|
  {
  }

  lemma ReadStored(s: Session, t: Turn, p: nat)
    requires t in s.runs && p < |LoadedOf(s, t)|
    ensures p < |ReadSplit(s, t)| && ReadSplit(s, t)[p] == Ordered(LoadedOf(s, t))[p].msg
  {
  }

  lemma ReadTail(s: Session, t: Turn, j: nat)
    requires t in s.runs && j < |Past(s.runs[t].msgs, |Written(s.rows, t)|)|
    ensures |LoadedOf(s, t)| + j < |ReadSplit(s, t)|
    ensures ReadSplit(s, t)[|LoadedOf(s, t)| + j] == Past(s.runs[t].msgs, |Written(s.rows, t)|)[j]
  {
  }

  lemma Origin(s: Session, t: Turn, p: nat) returns (u: Turn, i: nat)
    requires RowsInv(s) && t in s.runs && p < |ReadSplit(s, t)| && !NoCalls(ReadSplit(s, t)[p])
    ensures ComesFrom(s, t, p, ReadSplit(s, t)[p], u, i)
  {
    var n := |LoadedOf(s, t)|;
    if p < n {
      ReadStored(s, t, p);
      u, i := StoredOrigin(s, t, p);
    } else {
      ReadLength(s, t);
      ReadTail(s, t, p - n);
      TailOrigin(s, t, p - n);
      u, i := t, |Written(s.rows, t)| + p - n;
    }
  }

  /** A message is read at one place. */
  lemma ReadOnce(s: Session, t: Turn, p: nat, q: nat, m: Message, n: Message, u: Turn, i: nat)
    requires RowsInv(s) && t in s.runs && ComesFrom(s, t, p, m, u, i) && ComesFrom(s, t, q, n, u, i)
    ensures p == q
  {
    var l := LoadedOf(s, t);
    if p < |l| && q < |l| {
      LoadedIsStored(s, t, p);
      LoadedIsStored(s, t, q);
      assert Ordered(l)[p] == Ordered(l)[q];
      LoadedUnique(s.rows, t, s.runs[t].earlier, EndIds(s.rows));
      OrderKeepsIdsUnique(l);
    }
  }

  /** A call of a turn's is among those its runs made. */
  lemma HeldCall(s: Session, u: Turn, i: nat, id: string)
    requires RunsInv(s.runs) && u in s.runs && i < |Held(s.runs[u])| && Makes(Held(s.runs[u])[i].calls, id)
    ensures id in s.runs[u].made && AtIn(s.runs[u], i) < |Told(s.runs[u])| && Makes(Told(s.runs[u])[AtIn(s.runs[u], i)].calls, id)
  {
    var r := s.runs[u];
    HeldIsTold(r, i);
    assert OwnCalls(r);
    assert MadeIn(Told(r), id);
  }

  lemma MakesNth(calls: seq<ToolCall>, j: nat)
    requires j < |calls|
    ensures Makes(calls, calls[j].id)
  {
  }

  lemma OneTurn(s: Session, u: Turn, v: Turn, id: string)
    requires CallsOnce(s.runs) && u in s.runs && v in s.runs && id in s.runs[u].made && id in s.runs[v].made
    ensures u == v
  {
  }

  /** One turn makes a call, in one of its messages. */
  lemma OneMaker(s: Session, u: Turn, i: nat, v: Turn, k: nat, id: string)
    requires RunsInv(s.runs) && u in s.runs && v in s.runs && i < |Held(s.runs[u])| && k < |Held(s.runs[v])|
    requires Makes(Held(s.runs[u])[i].calls, id) && Makes(Held(s.runs[v])[k].calls, id)
    ensures u == v && i == k
  {
    HeldCall(s, u, i, id);
    HeldCall(s, v, k, id);
    OneTurn(s, u, v, id);
    assert OwnCalls(s.runs[u]);
  }

  lemma SamePlace(s: Session, t: Turn, p: nat, j: nat, q: nat, l: nat)
    requires Inv(s) && t in s.runs
    requires var ms := ReadSplit(s, t); p < |ms| && q < |ms| && j < |ms[p].calls| && l < |ms[q].calls| && ms[p].calls[j].id == ms[q].calls[l].id
    ensures p == q && j == l
  {
    var ms := ReadSplit(s, t);
    var id := ms[p].calls[j].id;
    var u, i := Origin(s, t, p);
    var v, k := Origin(s, t, q);
    MakesNth(ms[p].calls, j);
    MakesNth(ms[q].calls, l);
    OneMaker(s, u, i, v, k, id);
    ReadOnce(s, t, p, q, ms[p], ms[q], u, i);
    HeldIsTold(s.runs[u], i);
    assert OwnCalls(s.runs[u]);
  }

  /** What a call reads makes each call once. */
  lemma ReadCallsOnce(s: Session, t: Turn)
    requires Inv(s) && t in s.runs
    ensures UniqueCalls(ReadSplit(s, t))
  {
    var ms := ReadSplit(s, t);
    forall p, j, q, l | 0 <= p < |ms| && 0 <= j < |ms[p].calls| && 0 <= q < |ms| && 0 <= l < |ms[q].calls| && ms[p].calls[j].id == ms[q].calls[l].id
      ensures p == q && j == l
    {
      SamePlace(s, t, p, j, q, l);
    }
  }

  lemma ReadShaped(s: Session, t: Turn, p: nat)
    requires Inv(s) && t in s.runs && p < |ReadSplit(s, t)|
    ensures WellShaped(ReadSplit(s, t)[p])
  {
    if !NoCalls(ReadSplit(s, t)[p]) {
      var u, i := Origin(s, t, p);
      HeldIsTold(s.runs[u], i);
      assert Signed(Told(s.runs[u])[AtIn(s.runs[u], i)], s.runs[u]);
    }
  }

  // --- When the turns' batches meet what was stored before ---

  /** What was stored as the turn began ends where a batch of its messages does, as far as it produced. */
  predicate Lands(k: nat, msgs: seq<Message>) { |msgs| <= k || Scan(msgs[..k]) == Some([]) }

  predicate Whole(r: Run) { Scan(r.kept) == Some([]) && Lands(|r.kept|, r.msgs) }

  ghost predicate AllWhole(s: Session) { forall u :: u in s.runs ==> Whole(s.runs[u]) }

  lemma WholePrefix(r: Run, k: nat)
    requires Whole(r) && |r.kept| <= k <= |Held(r)| && (|r.kept| < k ==> Scan(r.msgs[..k]) == Some([]))
    ensures Scan(Held(r)[..k]) == Some([])
  {
    var n := |r.kept|;
    if n == k {
      assert Held(r)[..k] == r.kept;
    } else {
      assert Held(r)[..k] == r.kept + r.msgs[n..k];
      assert r.msgs[..k] == r.msgs[..n] + r.msgs[n..k];
      ScanSplit(r.kept, r.msgs[n..k]);
      ScanSplit(r.msgs[..n], r.msgs[n..k]);
    }
  }

  lemma StoredScans(s: Session, u: Turn)
    requires Stored(s) && u in s.runs && Whole(s.runs[u])
    ensures Scan(Msgs(Written(s.rows, u))) == Some([])
  {
    var w := Written(s.rows, u);
    StoredBegins(s, u);
    assert Msgs(w) == Held(s.runs[u])[..|w|];
    WholePrefix(s.runs[u], |w|);
  }

  lemma HeldScans(w: seq<Entry>, u: Turn, r: Run)
    requires Begins(w, u, r) && Whole(r)
    ensures Scan(Held(r)) == Some([])
  {
    assert r.msgs[..|r.msgs|] == r.msgs && Held(r)[..|Held(r)|] == Held(r);
    WholePrefix(r, |Held(r)|);
  }

  lemma WriterRuns(s: Session, u: Turn)
    requires OfRuns(s) && Written(s.rows, u) != []
    ensures u in s.runs
  {
    var e := Written(s.rows, u)[0];
    WrittenMeans(s.rows, u, e);
    var i :| 0 <= i < |s.rows| && s.rows[i] == e;
    assert Belongs(s.rows[i], s.runs);
  }

  lemma WrittenSorted(rows: seq<Entry>, next: int, u: Turn)
    requires Ascending(rows, next)
    ensures Sort(Written(rows, u), IdLe) == Written(rows, u)
  {
    WrittenAscends(rows, next, u);
    SortOfSorted(Written(rows, u), IdLe);
  }

  /** A turn's block, as sorted, is what is stored of it. */
  lemma BlockScans(s: Session, t: Turn, b: Block)
    requires RowsInv(s) && AllWhole(s) && t in s.runs && Gathered(b, LoadedOf(s, t))
    ensures Scan(Msgs(SortedBlock(b))) == Some([])
  {
    WholeOrNothing(s.rows, t, s.runs[t].earlier, EndIds(s.rows), b.turn);
    if b.msgs != [] {
      WrittenSorted(s.rows, s.next, b.turn);
      WriterRuns(s, b.turn);
      StoredScans(s, b.turn);
    } else {
      assert Msgs(SortedBlock(b)) == [];
    }
  }

  lemma PlainMakesNoCall(s: Session, t: Turn, plain: seq<Entry>, blocks: seq<Block>, byTurn: map<Turn, nat>, m: Entry)
    requires RowsInv(s) && t in s.runs && GatheredAll(plain, blocks, byTurn, LoadedOf(s, t)) && m in Sort(plain, IdLe)
    ensures NoCalls(m.msg)
  {
    assert m in multiset(Sort(plain, IdLe));
    assert m in multiset(plain) + multiset(Flat(blocks));
    assert m in multiset(LoadedOf(s, t));
    LoadedMeans(s.rows, t, s.runs[t].earlier, EndIds(s.rows), m);
    RowOrigin(s, m);
  }

  lemma LoadedScans(s: Session, t: Turn)
    requires RowsInv(s) && AllWhole(s) && t in s.runs
    ensures Scan(Msgs(Ordered(LoadedOf(s, t)))) == Some([])
  {
    var l := LoadedOf(s, t);
    var plain, blocks, byTurn := Gathers(l);
    LoadedUnique(s.rows, t, s.runs[t].earlier, EndIds(s.rows));
    MergedIsOrdered(plain, blocks, byTurn, l);
    var p, q := Sort(plain, IdLe), Sort(blocks, BlockLe);
    forall i | 0 <= i < |p| ensures NoCalls(p[i].msg) { PlainMakesNoCall(s, t, plain, blocks, byTurn, p[i]); }
    forall k | 0 <= k < |q| ensures Scan(Msgs(SortedBlock(q[k]))) == Some([]) {
      assert q[k] in multiset(blocks);
      BlockScans(s, t, q[k]);
    }
    MergeScans(p, q);
  }

  lemma TailScans(s: Session, t: Turn)
    requires Stored(s) && t in s.runs && Whole(s.runs[t])
    ensures Scan(Past(s.runs[t].msgs, |Written(s.rows, t)|)) == Some([])
  {
    var r, w := s.runs[t], Written(s.rows, t);
    StoredBegins(s, t);
    HeldScans(w, t, r);
    HeldParts(r, |w|);
    WholePrefix(r, |w|);
    ScanSplit(Held(r)[..|w|], Past(r.msgs, |w|));
  }

  lemma SplitScans(s: Session, t: Turn)
    requires Inv(s) && AllWhole(s) && t in s.runs
    ensures Scan(ReadSplit(s, t)) == Some([])
  {
    LoadedScans(s, t);
    TailScans(s, t);
    ScanSplit(Msgs(Ordered(LoadedOf(s, t))), Past(s.runs[t].msgs, |Written(s.rows, t)|));
  }

  /** What a call reads makes each call once, holds each call directly with its results, and is shaped as
      the program stores messages. */
  lemma ReadKeepsCalls(s: Session, t: Turn)
    requires Inv(s) && AllWhole(s) && t in s.runs
    ensures s.runs[t].told <= |s.runs[t].msgs|
    ensures UniqueCalls(ReadBy(s, t)) && Scan(ReadBy(s, t)) == Some([])
    ensures forall p :: 0 <= p < |ReadBy(s, t)| ==> WellShaped(ReadBy(s, t)[p])
  {
    ReadCallsOnce(s, t);
    SplitScans(s, t);
    forall p | 0 <= p < |ReadSplit(s, t)| ensures WellShaped(ReadSplit(s, t)[p]) { ReadShaped(s, t, p); }
    ReadMeans(s, t);
  }

  ghost predicate AnswersAll(out: seq<ChatMessage>) { CallsAnswered(out, []) && ResultsCalled(out) }

  lemma WholeIsAnswered(s: Session, t: Turn, v: View)
    requires Inv(s) && AllWhole(s) && t in s.runs
    ensures s.runs[t].told <= |s.runs[t].msgs| && AnswersAll(Converted(v, ReadBy(s, t)))
  {
    ReadKeepsCalls(s, t);
    CallsKeepTheirResults(v, ReadBy(s, t));
    ScanMeans(Converted(v, ReadBy(s, t)));
  }

  // --- A result without its call ---

  lemma BlockStays(out: seq<ChatMessage>, text: string, cm: ChatMessage)
    requires cm in out && cm.result.Some?
    ensures cm in AppendUserText(out, text)
  {
    var k :| 0 <= k < |out| && out[k] == cm;
    var r := AppendUserText(out, text);
    assert k < |r| && r[k] == cm;
  }

  lemma {:induction false} ResultIsRead(v: View, c: Calls, ms: seq<Message>, p: nat)
    requires p < |ms| && ms[p].kind == Kind.Ordinary && ms[p].role == Tool && ms[p].result.Some? && ms[p].result.value.callId !in c.others
    ensures exists cm :: cm in Translate(v, c, ms) && cm.result.Some? && cm.result.value.callId == ms[p].result.value.callId
  {
    var n := |ms| - 1;
    var out := Translate(v, c, ms[..n]);
    if p == n {
      assert Read(v, c, ms[n]) == Convert.Reading.Block(OwnMessage(c, ms[n]));
      assert Translate(v, c, ms) == out + [OwnMessage(c, ms[n])];
      assert OwnMessage(c, ms[n]) in Translate(v, c, ms);
    } else {
      ResultIsRead(v, c, ms[..n], p);
      var cm :| cm in out && cm.result.Some? && cm.result.value.callId == ms[p].result.value.callId;
      match Read(v, c, ms[n])
      case Words(text) => BlockStays(out, text, cm);
      case Block(other) => assert cm in out + [other];
    }
  }

  ghost predicate ChatMakes(out: seq<ChatMessage>, id: string) {
    exists i, j :: 0 <= i < |out| && 0 <= j < |out[i].calls| && out[i].calls[j].id == id
  }

  lemma {:induction false} CallsComeFrom(v: View, c: Calls, ms: seq<Message>, id: string)
    requires ChatMakes(Translate(v, c, ms), id)
    ensures MadeIn(ms, id)
  {
    NoOtherBlocks(v, c, ms);
    var out := Translate(v, c, ms);
    var i, j :| 0 <= i < |out| && 0 <= j < |out[i].calls| && out[i].calls[j].id == id;
    var k :| 0 <= k < |ms| && out[i] == OwnMessage(c, ms[k]) && !Other(v, ms[k]);
    assert ms[k].calls[j].id == id;
  }

  lemma MadeMeans(ms: seq<Message>, id: string)
    ensures MadeIn(ms, id) <==> exists p :: 0 <= p < |ms| && Makes(ms[p].calls, id)
  {
    if exists p :: 0 <= p < |ms| && Makes(ms[p].calls, id) {
      var p :| 0 <= p < |ms| && Makes(ms[p].calls, id);
      var j :| 0 <= j < |ms[p].calls| && ms[p].calls[j].id == id;
    }
    if MadeIn(ms, id) {
      var p, j :| 0 <= p < |ms| && 0 <= j < |ms[p].calls| && ms[p].calls[j].id == id;
      assert Makes(ms[p].calls, id);
    }
  }

  lemma NoneMakes(v: View, ms: seq<Message>, id: string)
    requires !MadeIn(ms, id)
    ensures id !in CallsOf(v, ms).others && id !in CallsOf(v, ms).called
  {
    CallsOfMeans(v, ms, id);
    MadeMeans(ms, id);
  }

  /** The model reads a result without its call when the conversation holds one. */
  lemma DanglingShows(v: View, ms: seq<Message>, p: nat)
    requires p < |ms| && ms[p].kind == Kind.Ordinary && ms[p].role == Tool && ms[p].result.Some? && !MadeIn(ms, ms[p].result.value.callId)
    ensures !ResultsCalled(Converted(v, ms))
  {
    var c, id, out := CallsOf(v, ms), ms[p].result.value.callId, Converted(v, ms);
    NoneMakes(v, ms, id);
    ResultIsRead(v, c, ms, p);
    var cm :| cm in out && cm.result.Some? && cm.result.value.callId == id;
    var k :| 0 <= k < |out| && out[k] == cm;
    if HasItsCall(out, k) {
      var i :| 0 <= i < k && k - i - 1 < |out[i].calls| && out[i].calls[k - i - 1].id == id;
      assert ChatMakes(out, id);
      CallsComeFrom(v, c, ms, id);
    }
  }

  lemma StoredIsRead(s: Session, t: Turn, x: Entry) returns (p: nat)
    requires t in s.runs && x in Written(s.rows, t)
    ensures p < |LoadedOf(s, t)| && Ordered(LoadedOf(s, t))[p] == x
  {
    var l := LoadedOf(s, t);
    WholeOrNothing(s.rows, t, s.runs[t].earlier, EndIds(s.rows), t);
    assert x in Of(l, t);
    assert x in multiset(l);
    assert x in multiset(Ordered(l));
    p :| 0 <= p < |Ordered(l)| && Ordered(l)[p] == x;
  }

  lemma PastAt(r: Run, k: nat, i: nat)
    requires |r.kept| <= k <= i < |Held(r)|
    ensures i - k < |Past(r.msgs, k)| && Past(r.msgs, k)[i - k] == Held(r)[i]
  {
    HeldParts(r, k);
  }

  lemma StoredLength(s: Session, t: Turn)
    requires Stored(s) && t in s.runs
    ensures |s.runs[t].kept| <= |Written(s.rows, t)| <= |Held(s.runs[t])|
  {
    StoredBegins(s, t);
  }

  lemma HeldStored(s: Session, t: Turn, i: nat)
    requires Stored(s) && t in s.runs && i < |Written(s.rows, t)|
    ensures i < |Held(s.runs[t])| && Written(s.rows, t)[i].msg == Held(s.runs[t])[i]
  {
    StoredBegins(s, t);
  }

  lemma StoredHeldIsRead(s: Session, t: Turn, i: nat, m: Message) returns (p: nat)
    requires t in s.runs && i < |Written(s.rows, t)| && m == Written(s.rows, t)[i].msg
    ensures p < |ReadSplit(s, t)| && ReadSplit(s, t)[p] == m
  {
    p := StoredIsRead(s, t, Written(s.rows, t)[i]);
    ReadStored(s, t, p);
  }

  lemma TailHeldIsRead(s: Session, t: Turn, j: nat, m: Message) returns (p: nat)
    requires t in s.runs && j < |Past(s.runs[t].msgs, |Written(s.rows, t)|)| && m == Past(s.runs[t].msgs, |Written(s.rows, t)|)[j]
    ensures p < |ReadSplit(s, t)| && ReadSplit(s, t)[p] == m
  {
    p := |LoadedOf(s, t)| + j;
    ReadTail(s, t, j);
  }

  lemma StoredPartIsRead(s: Session, t: Turn, i: nat) returns (p: nat)
    requires Stored(s) && t in s.runs && i < |Written(s.rows, t)|
    ensures i < |Held(s.runs[t])| && p < |ReadSplit(s, t)| && ReadSplit(s, t)[p] == Held(s.runs[t])[i]
  {
    HeldStored(s, t, i);
    p := StoredHeldIsRead(s, t, i, Held(s.runs[t])[i]);
  }

  lemma TailPartIsRead(s: Session, t: Turn, i: nat) returns (p: nat)
    requires t in s.runs && |s.runs[t].kept| <= |Written(s.rows, t)| <= i < |Held(s.runs[t])|
    ensures p < |ReadSplit(s, t)| && ReadSplit(s, t)[p] == Held(s.runs[t])[i]
  {
    PastAt(s.runs[t], |Written(s.rows, t)|, i);
    p := TailHeldIsRead(s, t, i - |Written(s.rows, t)|, Held(s.runs[t])[i]);
  }

  /** Every message a turn's keys stand for is read by its calls. */
  lemma HeldIsRead(s: Session, t: Turn, i: nat) returns (p: nat)
    requires Stored(s) && t in s.runs && i < |Held(s.runs[t])|
    ensures p < |ReadSplit(s, t)| && ReadSplit(s, t)[p] == Held(s.runs[t])[i]
  {
    if i < |Written(s.rows, t)| {
      p := StoredPartIsRead(s, t, i);
    } else {
      StoredLength(s, t);
      p := TailPartIsRead(s, t, i);
    }
  }

  /** A batch that does not end with what was stored before leaves a result past it, its call lost. */
  lemma ResultLeft(k: nat, msgs: seq<Message>) returns (i: nat)
    requires Scan(msgs) == Some([]) && !Lands(k, msgs)
    ensures k < |msgs| && msgs[k].result.Some? && i < k && Makes(msgs[i].calls, msgs[k].result.value.callId)
  {
    ScanPrefix(msgs, k);
    ScanPrefix(msgs, k + 1);
    assert msgs[..k + 1][..k] == msgs[..k];
    i := ResultFollowsCall(msgs, k);
    var id := msgs[k].result.value.callId;
    var j :| 0 <= j < |CallIds(msgs[i].calls)| && CallIds(msgs[i].calls)[j] == id;
    assert msgs[i].calls[j].id == id;
  }

  lemma LostForGood(r: Run, i: nat, k: nat, id: string)
    requires OwnCalls(r) && i < |r.kept| && i < |r.msgs| && Makes(r.msgs[i].calls, id) && k < |Held(r)|
    ensures id in r.made && !Makes(Held(r)[k].calls, id)
  {
    var j :| 0 <= j < |r.msgs[i].calls| && r.msgs[i].calls[j].id == id;
    assert Told(r)[|r.kept| + i] == r.msgs[i];
    assert MadeIn(Told(r), id);
    HeldIsTold(r, k);
    assert AtIn(r, k) != |r.kept| + i;
  }

  /** No message read makes a call of a message the turn's keys do not stand for. */
  lemma LostCall(s: Session, t: Turn, i: nat, id: string, p: nat)
    requires Inv(s) && t in s.runs && p < |ReadSplit(s, t)|
    requires i < |s.runs[t].kept| && i < |s.runs[t].msgs| && Makes(s.runs[t].msgs[i].calls, id)
    ensures !Makes(ReadSplit(s, t)[p].calls, id)
  {
    if Makes(ReadSplit(s, t)[p].calls, id) {
      var u, k := Origin(s, t, p);
      HeldCall(s, u, k, id);
      assert OwnCalls(s.runs[t]);
      LostForGood(s.runs[t], i, if u == t then k else 0, id);
      OneTurn(s, u, t, id);
    }
  }

  lemma SplitNotAnswered(s: Session, t: Turn, v: View)
    requires Inv(s) && t in s.runs && !Lands(|s.runs[t].kept|, s.runs[t].msgs)
    ensures !ResultsCalled(Converted(v, ReadSplit(s, t)))
  {
    var r, k := s.runs[t], |s.runs[t].kept|;
    StoredBegins(s, t);
    var i := ResultLeft(k, r.msgs);
    var id := r.msgs[k].result.value.callId;
    var p := HeldIsRead(s, t, k);
    assert Signed(Told(r)[k + k], r);
    forall q | 0 <= q < |ReadSplit(s, t)| ensures !Makes(ReadSplit(s, t)[q].calls, id) { LostCall(s, t, i, id, q); }
    MadeMeans(ReadSplit(s, t), id);
    DanglingShows(v, ReadSplit(s, t), p);
  }

  lemma NotWholeNotAnswered(s: Session, t: Turn, v: View)
    requires Inv(s) && t in s.runs && !Lands(|s.runs[t].kept|, s.runs[t].msgs)
    ensures s.runs[t].told <= |s.runs[t].msgs| && !ResultsCalled(Converted(v, ReadBy(s, t)))
  {
    SplitNotAnswered(s, t, v);
    ReadMeans(s, t);
  }

  // --- Over every run ---

  /** What a turn produces does not go on in the middle of a batch past what was stored as it began. */
  ghost predicate Landing(s: Session, e: Event)
    requires Enabled(s, e)
  {
    e.Produce? ==> Lands(|s.runs[e.turn].kept|, s.runs[e.turn].msgs + e.batch)
  }

  lemma BegunWhole(s: Session, e: Event)
    requires RowsInv(s) && AllWhole(s) && Enabled(s, e) && e.Begin?
    ensures Whole(Apply(s, e).runs[e.turn])
  {
    if e.turn in s.runs { StoredScans(s, e.turn); } else { NoRows(s, e.turn); }
  }

  lemma OthersWhole(s: Session, e: Event, u: Turn)
    requires AllWhole(s) && Enabled(s, e) && u in Apply(s, e).runs && !((e.Begin? || e.Produce?) && u == e.turn)
    ensures Whole(Apply(s, e).runs[u])
  {
  }

  lemma WholeExactlyWhen(s: Session, e: Event)
    requires Inv(s) && AllWhole(s) && Enabled(s, e)
    ensures AllWhole(Apply(s, e)) <==> Landing(s, e)
  {
    if e.Begin? { BegunWhole(s, e); }
    var next := Apply(s, e);
    forall u | u in next.runs && !(e.Begin? && u == e.turn) && !(e.Produce? && u == e.turn) ensures Whole(next.runs[u]) { OthersWhole(s, e, u); }
    if e.Produce? { assert next.runs[e.turn].kept == s.runs[e.turn].kept; }
  }

  ghost predicate ReadsAnswered(s: Session, t: Turn, v: View)
    requires t in s.runs
  {
    s.runs[t].told <= |s.runs[t].msgs| && AnswersAll(Converted(v, ReadBy(s, t)))
  }

  /** A step keeps every turn reading each call with its results, and each result with its call, if and only
      if it is no batch that lands across what an earlier run of its turn stored. */
  lemma AnsweredExactlyWhen(s: Session, e: Event, v: View)
    requires Inv(s) && AllWhole(s) && Enabled(s, e)
    ensures (forall t :: t in Apply(s, e).runs ==> ReadsAnswered(Apply(s, e), t, v)) <==> Landing(s, e)
  {
    var next := Apply(s, e);
    StepKeeps(s, e);
    WholeExactlyWhen(s, e);
    if Landing(s, e) {
      forall t | t in next.runs ensures ReadsAnswered(next, t, v) { WholeIsAnswered(next, t, v); }
    } else {
      assert e.turn in next.runs;
      NotWholeNotAnswered(next, e.turn, v);
    }
  }

  ghost predicate AllLanding(s: Session, es: seq<Event>)
    decreases |es|
  {
    es == [] || (Enabled(s, es[0]) && Landing(s, es[0]) && AllLanding(Apply(s, es[0]), es[1..]))
  }

  lemma {:induction false} RunsWhole(s: Session, es: seq<Event>, last: Session)
    requires Inv(s) && AllWhole(s) && Reaches(s, es, last) && AllLanding(s, es)
    ensures Inv(last) && AllWhole(last)
    decreases |es|
  {
    if es != [] {
      StepKeeps(s, es[0]);
      WholeExactlyWhen(s, es[0]);
      RunsWhole(Apply(s, es[0]), es[1..], last);
    }
  }

  /** Over every run of such steps the model reads every call followed by exactly its results. */
  lemma EveryCallAnswered(es: seq<Event>, last: Session, t: Turn, v: View)
    requires Reaches(EMPTY, es, last) && AllLanding(EMPTY, es) && t in last.runs
    ensures last.runs[t].told <= |last.runs[t].msgs| && AnswersAll(Converted(v, ReadBy(last, t)))
  {
    RunsWhole(EMPTY, es, last);
    WholeIsAnswered(last, t, v);
  }

  lemma {:induction false} OnceLands(s: Session, es: seq<Event>, last: Session)
    requires Inv(s) && Regular(s) && Reaches(s, es, last) && Once(s, es)
    ensures AllLanding(s, es)
    decreases |es|
  {
    if es != [] {
      OnceStays(s, es[0]);
      StepKeeps(s, es[0]);
      if es[0].Produce? { assert (s.runs[es[0].turn].msgs + es[0].batch)[..0] == []; }
      OnceLands(Apply(s, es[0]), es[1..], last);
    }
  }

  /** And so in every run in which each message is answered once. */
  lemma AnsweredWhenOnce(es: seq<Event>, last: Session, t: Turn, v: View)
    requires Reaches(EMPTY, es, last) && Once(EMPTY, es) && t in last.runs
    ensures last.runs[t].told <= |last.runs[t].msgs| && AnswersAll(Converted(v, ReadBy(last, t)))
  {
    OnceLands(EMPTY, es, last);
    EveryCallAnswered(es, last, t, v);
  }
}
