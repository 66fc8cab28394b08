/** A fork's reports to its parent (store/report.go, session/report.go): the range each covers, the chain
    they make. */
module Reports {
  import opened Text
  import opened Keys
  import opened Messages
  import opened Scope
  import opened Session
  import Turns = Session
  import opened Reading

  // --- What there is to report ---

  ghost predicate AnsweredIn(msgs: seq<Entry>, id: string) {
    exists k :: 0 <= k < |msgs| && msgs[k].msg.result.Some? && msgs[k].msg.result.value.callId == id
  }

  /** The turn of the last message a turn wrote. */
  function Latest(msgs: seq<Entry>): Option<Turn> {
    if msgs == [] then None else
    var w := msgs[|msgs| - 1].key.Writer();
    if w.Some? then w else Latest(msgs[..|msgs| - 1])
  }

  /** The latest turn is that of the last message a turn wrote. */
  lemma {:induction false} LatestMeans(msgs: seq<Entry>)
    ensures match Latest(msgs)
      case None => forall i :: 0 <= i < |msgs| ==> msgs[i].key.Writer() == None
      case Some(t) => exists i :: 0 <= i < |msgs| && msgs[i].key.Writer() == Some(t) && forall j :: i < j < |msgs| ==> msgs[j].key.Writer() == None
  {
    if msgs != [] {
      var n := |msgs| - 1;
      LatestMeans(msgs[..n]);
      if msgs[n].key.Writer() == None && Latest(msgs[..n]).Some? {
        var i :| 0 <= i < n && msgs[..n][i].key.Writer() == Latest(msgs) && forall j :: i < j < n ==> msgs[..n][j].key.Writer() == None;
        assert msgs[i].key.Writer() == Latest(msgs);
        forall j | i < j < |msgs| ensures msgs[j].key.Writer() == None { if j < n { assert msgs[..n][j] == msgs[j]; } }
      } else if msgs[n].key.Writer() == None {
        forall i | 0 <= i < |msgs| ensures msgs[i].key.Writer() == None { if i < n { assert msgs[..n][i] == msgs[i]; } }
      } else {
        assert msgs[n].key.Writer() == Latest(msgs);
      }
    }
  }

  /** A message of the latest turn with a call no result answers yet. */
  ghost predicate Waits(msgs: seq<Entry>, i: nat)
    requires i < |msgs|
  {
    && Latest(msgs).Some? && msgs[i].key.Writer() == Latest(msgs)
    && exists j :: 0 <= j < |msgs[i].msg.calls| && !AnsweredIn(msgs, msgs[i].msg.calls[j].id)
  }

  /** at is the index of the first such message; the number of messages when there is none. */
  ghost predicate FirstWaits(msgs: seq<Entry>, at: nat) {
    at <= |msgs| && (at < |msgs| ==> Waits(msgs, at)) && forall i :: 0 <= i < at ==> !Waits(msgs, i)
  }

  method PendingCall(msgs: seq<Entry>) returns (at: nat)
    ensures FirstWaits(msgs, at)
  {
    var latest: Option<Turn> := None;
    var answered: set<string> := {};
    for i := 0 to |msgs|
      invariant latest == Latest(msgs[..i])
      invariant forall id :: id in answered <==> AnsweredIn(msgs[..i], id)
    {
      assert msgs[..i + 1][..i] == msgs[..i];
      OneMoreAnswer(msgs, i);
      if msgs[i].key.Writer().Some? {
        latest := msgs[i].key.Writer();
      }
      if msgs[i].msg.result.Some? {
        answered := answered + {msgs[i].msg.result.value.callId};
      }
    }
    assert msgs[..|msgs|] == msgs;
    for i := 0 to |msgs|
      invariant forall k :: 0 <= k < i ==> !Waits(msgs, k)
    {
      if msgs[i].key.Writer().None? || msgs[i].key.Writer() != latest {
        continue;
      }
      var calls := msgs[i].msg.calls;
      for j := 0 to |calls|
        invariant forall k :: 0 <= k < j ==> calls[k].id in answered
      {
        if calls[j].id !in answered {
          return i;
        }
      }
    }
    return |msgs|;
  }

  lemma OneMoreAnswer(msgs: seq<Entry>, i: nat)
    requires i < |msgs|
    ensures forall id :: AnsweredIn(msgs[..i + 1], id) <==>
      AnsweredIn(msgs[..i], id) || (msgs[i].msg.result.Some? && msgs[i].msg.result.value.callId == id)
  {
    forall id
      ensures AnsweredIn(msgs[..i + 1], id) <==> AnsweredIn(msgs[..i], id) || (msgs[i].msg.result.Some? && msgs[i].msg.result.value.callId == id)
    {
      assert msgs[..i + 1][i] == msgs[i];
      assert forall k :: 0 <= k < i ==> msgs[..i + 1][k] == msgs[..i][k];
      if AnsweredIn(msgs[..i], id) {
        var k :| 0 <= k < i && msgs[..i][k].msg.result.Some? && msgs[..i][k].msg.result.value.callId == id;
        assert msgs[..i + 1][k].msg.result.value.callId == id;
      }
    }
  }

  /** Something to report after from, before the call at. */
  ghost predicate NewBefore(msgs: seq<Entry>, from: int, at: nat, reportable: Message -> bool)
    requires at <= |msgs|
  {
    exists i :: 0 <= i < at && msgs[i].id > from && reportable(msgs[i].msg)
  }

  /** What a range covers: everything after from and before the call at; ok when there is something to report. */
  ghost predicate Covers(msgs: seq<Entry>, from: int, upTo: int, ok: bool, at: nat, reportable: Message -> bool)
    requires at <= |msgs|
  {
    (ok <==> NewBefore(msgs, from, at, reportable)) && (ok ==> from < upTo && at > 0 && upTo == msgs[at - 1].id)
  }

  /** The range of the next report: after the last one, up to the last message before a call waiting for
      its results. Given messages by ID, it is not empty when there is something to report. */
  method ReportRange(reported: int, msgs: seq<Entry>, reportable: Message -> bool) returns (from: int, upTo: int, ok: bool)
    requires forall i, j :: 0 <= i < j < |msgs| ==> msgs[i].id < msgs[j].id
    ensures from == reported && exists at: nat :: FirstWaits(msgs, at) && Covers(msgs, from, upTo, ok, at, reportable)
  {
    from, upTo, ok := reported, 0, false;
    var cut := PendingCall(msgs);
    for i := 0 to cut
      invariant i > 0 ==> upTo == msgs[i - 1].id
      invariant ok <==> NewBefore(msgs, reported, i, reportable)
      invariant ok ==> from < upTo
    {
      upTo := msgs[i].id;
      if msgs[i].id > from && reportable(msgs[i].msg) {
        ok := true;
      }
    }
    assert Covers(msgs, from, upTo, ok, cut, reportable);
  }

  /** The range of a report, in the messages' terms, when no call of the latest turn waits: everything after from, up to
      the last message, when one of those is reportable. */
  lemma RangeWhenNoneWaits(msgs: seq<Entry>, from: int, upTo: int, ok: bool, at: nat, reportable: Message -> bool)
    requires FirstWaits(msgs, at) && Covers(msgs, from, upTo, ok, at, reportable)
    requires forall i, j :: 0 <= i < |msgs| && 0 <= j < |msgs[i].msg.calls| && msgs[i].key.Writer().Some? ==>
      exists k :: 0 <= k < |msgs| && msgs[k].msg.result.Some? && msgs[k].msg.result.value.callId == msgs[i].msg.calls[j].id
    ensures ok <==> exists i :: 0 <= i < |msgs| && msgs[i].id > from && reportable(msgs[i].msg)
    ensures ok ==> msgs != [] && upTo == msgs[|msgs| - 1].id && from < upTo
  {
    assert at == |msgs|;
  }

  /** And when one does, nothing of its message on: the cut is the first message, of the turn that wrote last, with a call
      no result answers. */
  lemma RangeBeforeTheCall(msgs: seq<Entry>, from: int, upTo: int, ok: bool, at: nat, reportable: Message -> bool, i: nat, j: nat)
    requires FirstWaits(msgs, at) && Covers(msgs, from, upTo, ok, at, reportable)
    requires i < |msgs| && j < |msgs[i].msg.calls| && msgs[i].key.Writer().Some?
    requires forall k :: i < k < |msgs| ==> msgs[k].key.Writer() == None || msgs[k].key.Writer() == msgs[i].key.Writer()
    requires forall k :: 0 <= k < |msgs| && msgs[k].msg.result.Some? ==> msgs[k].msg.result.value.callId != msgs[i].msg.calls[j].id
    requires forall k, l :: 0 <= k < l < |msgs| ==> msgs[k].id < msgs[l].id
    ensures at <= i && (ok ==> upTo < msgs[i].id)
    ensures ok <==> exists k :: 0 <= k < at && msgs[k].id > from && reportable(msgs[k].msg)
  {
    LatestMeans(msgs);
    LatestIs(msgs, i);
    assert !AnsweredIn(msgs, msgs[i].msg.calls[j].id);
    assert Waits(msgs, i);
  }

  lemma LatestIs(msgs: seq<Entry>, i: nat)
    requires i < |msgs| && msgs[i].key.Writer().Some?
    requires forall k :: i < k < |msgs| ==> msgs[k].key.Writer() == None || msgs[k].key.Writer() == msgs[i].key.Writer()
    ensures Latest(msgs) == msgs[i].key.Writer()
  {
    LatestMeans(msgs);
    if Latest(msgs).Some? {
      var k :| 0 <= k < |msgs| && msgs[k].key.Writer() == Latest(msgs) && forall j :: k < j < |msgs| ==> msgs[j].key.Writer() == None;
    }
  }

  ghost predicate AnsweredAfter(ms: seq<Message>, i: nat, id: string) {
    exists k :: i < k < |ms| && ms[k].result.Some? && ms[k].result.value.callId == id
  }

  /** Every call is answered after the message that makes it. */
  ghost predicate AnswersCalls(ms: seq<Message>) {
    forall i, j :: 0 <= i < |ms| && 0 <= j < |ms[i].calls| ==> AnsweredAfter(ms, i, ms[i].calls[j].id)
  }

  /** A call is answered, or among those awaiting their results. */
  lemma {:induction false} ScanAnswers(ms: seq<Message>, i: nat, j: nat)
    requires Scan(ms).Some? && i < |ms| && j < |ms[i].calls|
    ensures ms[i].calls[j].id in Scan(ms).value || AnsweredAfter(ms, i, ms[i].calls[j].id)
  {
    var n := |ms| - 1;
    if i == n {
      if ms[n].result.None? { assert CallIds(ms[n].calls)[j] == ms[i].calls[j].id; }
    } else {
      ScanAnswers(ms[..n], i, j);
      var id := ms[i].calls[j].id;
      if id in Scan(ms[..n]).value {
        var l :| 0 <= l < |Scan(ms[..n]).value| && Scan(ms[..n]).value[l] == id;
        if ms[n].result.Some? && l > 0 { assert Scan(ms).value[l - 1] == id; }
      } else {
        var k :| i < k < n && ms[..n][k].result.Some? && ms[..n][k].result.value.callId == id;
        assert ms[k].result.value.callId == id;
      }
    }
  }

  /** What is stored of a turn answers the calls it makes, when what it found stored did. */
  lemma HeldAnswers(r: Run, n: nat)
    requires AnswersCalls(r.kept) && |r.kept| <= n <= |Held(r)| && (|r.kept| < n ==> Scan(r.msgs[..n]) == Some([]))
    ensures AnswersCalls(Held(r)[..n])
  {
    var ms := Held(r)[..n];
    forall i, j | 0 <= i < |ms| && 0 <= j < |ms[i].calls| ensures AnsweredAfter(ms, i, ms[i].calls[j].id) {
      if i < |r.kept| { KeptAnswers(r, n, i, j); } else { NewAnswers(r, n, i, j); }
    }
  }

  lemma KeptAnswers(r: Run, n: nat, i: nat, j: nat)
    requires AnswersCalls(r.kept) && i < |r.kept| <= n <= |Held(r)| && j < |r.kept[i].calls|
    ensures AnsweredAfter(Held(r)[..n], i, r.kept[i].calls[j].id)
  {
    var id := r.kept[i].calls[j].id;
    assert AnsweredAfter(r.kept, i, id);
    var k :| i < k < |r.kept| && r.kept[k].result.Some? && r.kept[k].result.value.callId == id;
    assert Held(r)[..n][k] == r.kept[k];
  }

  lemma NewAnswers(r: Run, n: nat, i: nat, j: nat)
    requires |r.kept| <= i < n <= |Held(r)| && Scan(r.msgs[..n]) == Some([]) && j < |r.msgs[i].calls|
    ensures AnsweredAfter(Held(r)[..n], i, r.msgs[i].calls[j].id)
  {
    var ms, id := r.msgs[..n], r.msgs[i].calls[j].id;
    assert ms[i] == r.msgs[i];
    ScanAnswers(ms, i, j);
    var k :| i < k < n && ms[k].result.Some? && ms[k].result.value.callId == id;
    assert Held(r)[..n][k] == ms[k];
  }

  ghost predicate AllAnswer(s: Session) { forall u :: u in s.runs ==> AnswersCalls(s.runs[u].kept) }

  lemma StoredAnswers(s: Session, u: Turn)
    requires RowsInv(s) && AllAnswer(s) && u in s.runs
    ensures AnswersCalls(Msgs(Written(s.rows, u)))
  {
    var w, r := Written(s.rows, u), s.runs[u];
    assert StoredRun(s.rows, u, r);
    HeldAnswers(r, |w|);
    assert Msgs(w) == Held(r)[..|w|];
  }

  lemma AnswersKept(s: Session, e: Event)
    requires RowsInv(s) && AllAnswer(s) && Enabled(s, e)
    ensures AllAnswer(Apply(s, e))
  {
    if e.Begin? {
      if e.turn in s.runs { StoredAnswers(s, e.turn); } else { NoRows(s, e.turn); }
    }
  }

  lemma {:induction false} RunsAnswer(s: Session, es: seq<Event>, last: Session)
    requires Inv(s) && AllAnswer(s) && Reaches(s, es, last)
    ensures Inv(last) && AllAnswer(last)
    decreases |es|
  {
    if es != [] {
      AnswersKept(s, es[0]);
      Turns.StepKeeps(s, es[0]);
      RunsAnswer(Apply(s, es[0]), es[1..], last);
    }
  }

  lemma ResultStored(s: Session, u: Turn, k: nat, id: string)
    requires AnsweredAfter(Msgs(Written(s.rows, u)), k, id)
    ensures AnsweredIn(s.rows, id)
  {
    var w := Written(s.rows, u);
    var l :| k < l < |Msgs(w)| && Msgs(w)[l].result.Some? && Msgs(w)[l].result.value.callId == id;
    WrittenMeans(s.rows, u, w[l]);
    var p :| 0 <= p < |s.rows| && s.rows[p] == w[l];
  }

  lemma CallAnswered(s: Session, i: nat, j: nat)
    requires RowsInv(s) && AllAnswer(s) && i < |s.rows| && s.rows[i].key.Produced? && j < |s.rows[i].msg.calls|
    ensures AnsweredIn(s.rows, s.rows[i].msg.calls[j].id)
  {
    var e, u := s.rows[i], s.rows[i].key.turn;
    var w := Written(s.rows, u);
    assert Belongs(e, s.runs);
    WrittenMeans(s.rows, u, e);
    var k :| 0 <= k < |w| && w[k] == e;
    StoredAnswers(s, u);
    assert Msgs(w)[k].calls[j].id == e.msg.calls[j].id;
    ResultStored(s, u, k, e.msg.calls[j].id);
  }

  /** In every state of every run of a session, no message of a turn has a call that waits: its turn
      stores it with its results. A report then covers everything up to the last message. */
  lemma NothingWaits(es: seq<Event>, s: Session, i: nat)
    requires Reaches(EMPTY, es, s) && i < |s.rows| && s.rows[i].key.Produced?
    ensures !Waits(s.rows, i)
  {
    RunsAnswer(EMPTY, es, s);
    forall j | 0 <= j < |s.rows[i].msg.calls| ensures AnsweredIn(s.rows, s.rows[i].msg.calls[j].id) { CallAnswered(s, i, j); }
  }

  // --- The chain of reports ---

  /** A fork of a session: its parent, the last of its messages reported. */
  datatype Fork = Fork(parent: Option<string>, reported: int)

  datatype Report = Report(fork: string, parent: string, from: int, upTo: int, reporter: string)

  /** A report's key in its parent (Keys.ForkReportKey), its parts apart. */
  datatype ReportKey = ReportKey(session: string, fork: string, from: int, upTo: int)

  datatype Rows = Rows(sessions: set<string>, forks: map<string, Fork>, posts: map<ReportKey, nat>, members: set<(string, string)>, next: nat)

  datatype Outcome = Posted(id: nat) | ForkGone | ParentGone | Stale | NotForkMember | NotParentMember

  function KeyOfReport(r: Report): ReportKey { ReportKey(r.parent, r.fork, r.from, r.upTo) }

  /** Posts a report and moves the fork's last reported message, together. */
  function Posts(st: Rows, r: Report): (Rows, Outcome) {
    if r.fork !in st.forks then (st, ForkGone)
    else if r.parent !in st.sessions || st.forks[r.fork].parent != Some(r.parent) then (st, ParentGone)
    else if KeyOfReport(r) in st.posts then (st, Posted(st.posts[KeyOfReport(r)]))
    else if st.forks[r.fork].reported != r.from then (st, Stale)
    else if (r.fork, r.reporter) !in st.members then (st, NotForkMember)
    else if (r.parent, r.reporter) !in st.members then (st, NotParentMember)
    else (st.(posts := st.posts[KeyOfReport(r) := st.next], next := st.next + 1,
              forks := st.forks[r.fork := st.forks[r.fork].(reported := r.upTo)]), Posted(st.next))
  }

  /** A report refused changes nothing; one posted is found posted by a retry; a new one takes its fork from
      the range's beginning to its end, its reporter a member of both sessions. */
  lemma PostedOnce(st: Rows, r: Report)
    ensures var (rows, out) := Posts(st, r);
      && (!out.Posted? ==> rows == st)
      && (out.Posted? ==> Posts(rows, r) == (rows, out) && KeyOfReport(r) in rows.posts && rows.posts[KeyOfReport(r)] == out.id)
      && (KeyOfReport(r) in st.posts ==> rows == st)
      && (KeyOfReport(r) !in st.posts && out.Posted? ==>
        && st.forks[r.fork].reported == r.from && rows.forks[r.fork].reported == r.upTo
        && (r.fork, r.reporter) in st.members && (r.parent, r.reporter) in st.members
        && rows.posts == st.posts[KeyOfReport(r) := st.next] && forall f :: f in st.forks && f != r.fork ==> rows.forks[f] == st.forks[f])
  {
  }

  /** Each answer, exactly when: a report is posted when its fork is its parent's, both there, it goes on from the last
      reported, and its reporter is a member of both; one posted before is found; the first of these to fail is said. */
  lemma PostedWhen(st: Rows, r: Report)
    ensures var (rows, out) := Posts(st, r);
      var linked := r.fork in st.forks && r.parent in st.sessions && st.forks[r.fork].parent == Some(r.parent);
      var before := ReportKey(r.parent, r.fork, r.from, r.upTo) in st.posts;
      var next := linked && !before && st.forks[r.fork].reported == r.from;
      && (out == ForkGone <==> r.fork !in st.forks) && (out == ParentGone <==> r.fork in st.forks && !linked)
      && (out == Stale <==> linked && !before && st.forks[r.fork].reported != r.from)
      && (out == NotForkMember <==> next && (r.fork, r.reporter) !in st.members)
      && (out == NotParentMember <==> next && (r.fork, r.reporter) in st.members && (r.parent, r.reporter) !in st.members)
      && (out.Posted? <==> linked && (before || (next && (r.fork, r.reporter) in st.members && (r.parent, r.reporter) in st.members)))
      && (out.Posted? && !before ==> out.id == st.next && rows == Rows(st.sessions, st.forks[r.fork := Fork(Some(r.parent), r.upTo)],
            st.posts[ReportKey(r.parent, r.fork, r.from, r.upTo) := st.next], st.members, st.next + 1))
  {
  }

  datatype Act =
    | Found(session: string)
    | ForkOf(fork: string, parent: string)
    | Join(session: string, user: string)
    | Leave(session: string, user: string)
    | Append(r: Report)
    | Remove(session: string)

  /** The rows, and the reports posted of each fork, in order. */
  datatype World = World(st: Rows, chains: map<string, seq<Report>>)

  /** A report asked for is of a range not empty (ReportRange). */
  predicate Can(w: World, a: Act) {
    match a
    case Found(session) => session !in w.st.sessions && session !in w.chains
    case ForkOf(fork, parent) => fork !in w.st.sessions && fork !in w.chains && parent in w.st.sessions
    case Append(r) => r.from < r.upTo
    case _ => true
  }

  function Do(w: World, a: Act): World
    requires Can(w, a)
  {
    match a
    case Found(session) => w.(st := w.st.(sessions := w.st.sessions + {session}))
    case ForkOf(fork, parent) =>
      World(w.st.(sessions := w.st.sessions + {fork}, forks := w.st.forks[fork := Fork(Some(parent), 0)]), w.chains[fork := []])
    case Join(session, user) => w.(st := w.st.(members := w.st.members + {(session, user)}))
    case Leave(session, user) => w.(st := w.st.(members := w.st.members - {(session, user)}))
    case Append(r) =>
      var (st, out) := Posts(w.st, r);
      if st == w.st then w else World(st, w.chains[r.fork := (if r.fork in w.chains then w.chains[r.fork] else []) + [r]])
    // A session goes with its messages; the forks of it are linked to none.
    case Remove(session) =>
      w.(st := w.st.(
        sessions := w.st.sessions - {session},
        forks := map f | f in w.st.forks && f != session :: if w.st.forks[f].parent == Some(session) then w.st.forks[f].(parent := None) else w.st.forks[f],
        posts := map k | k in w.st.posts && k.session != session :: w.st.posts[k]))
  }

  function EndOf(chain: seq<Report>): int { if chain == [] then 0 else chain[|chain| - 1].upTo }

  /** Ranges not empty, each beginning where the one before ends, the first at 0. */
  ghost predicate Chained(chain: seq<Report>) {
    && (forall i :: 0 <= i < |chain| ==> chain[i].from < chain[i].upTo)
    && (forall i :: 0 <= i < |chain| ==> chain[i].from == EndOf(chain[..i]))
  }

  /** The fork's row and its posts in its parent are what its chain says. */
  ghost predicate ForkOk(w: World, f: string)
    requires f in w.st.forks
  {
    && f in w.chains && w.st.forks[f].reported == EndOf(w.chains[f])
    && (w.st.forks[f].parent.Some? ==>
         forall from, upTo :: ReportKey(w.st.forks[f].parent.value, f, from, upTo) in w.st.posts <==> Ranges(w.chains[f], from, upTo))
  }

  ghost predicate Ranges(chain: seq<Report>, from: int, upTo: int) {
    exists i :: 0 <= i < |chain| && chain[i].from == from && chain[i].upTo == upTo
  }

  ghost predicate ChainsOk(w: World) {
    && (forall f :: f in w.chains ==> Chained(w.chains[f]))
    && (forall f :: f in w.st.forks ==> ForkOk(w, f))
    && (forall k :: k in w.st.posts ==> k.fork in w.chains)
  }

  lemma ChainGrows(chain: seq<Report>, r: Report)
    requires Chained(chain) && r.from < r.upTo && r.from == EndOf(chain)
    ensures Chained(chain + [r])
    ensures forall from, upTo :: Ranges(chain + [r], from, upTo) <==> Ranges(chain, from, upTo) || (from == r.from && upTo == r.upTo)
  {
    forall i | 0 <= i < |chain + [r]| ensures (chain + [r])[i].from == EndOf((chain + [r])[..i]) {
      assert (chain + [r])[..i] == chain[..i];
      assert chain[..|chain|] == chain;
    }
    forall from, upTo
      ensures Ranges(chain + [r], from, upTo) <==> Ranges(chain, from, upTo) || (from == r.from && upTo == r.upTo)
    {
      assert (chain + [r])[|chain|] == r;
      if Ranges(chain, from, upTo) {
        var i :| 0 <= i < |chain| && chain[i].from == from && chain[i].upTo == upTo;
        assert (chain + [r])[i] == chain[i];
      }
    }
  }

  lemma PostKept(w: World, a: Act, f: string, v: World)
    requires ChainsOk(w) && Can(w, a) && a.Append? && v == Do(w, a) && f in v.st.forks
    ensures ForkOk(v, f)
  {
    assert f in w.st.forks && ForkOk(w, f);
    if v != w && f == a.r.fork {
      ChainGrows(w.chains[f], a.r);
    }
  }

  lemma OthersKept(w: World, a: Act, f: string, v: World)
    requires ChainsOk(w) && Can(w, a) && !a.Append? && v == Do(w, a) && f in v.st.forks
    ensures ForkOk(v, f)
  {
    if f in w.st.forks { assert ForkOk(w, f); }
  }

  lemma OthersChained(w: World, a: Act, f: string, v: World)
    requires ChainsOk(w) && Can(w, a) && v == Do(w, a) && f in v.chains
    ensures Chained(v.chains[f])
  {
    if a.Append? && v != w && f == a.r.fork {
      assert ForkOk(w, f);
      ChainGrows(w.chains[f], a.r);
    }
  }

  lemma KeysKept(w: World, a: Act, k: ReportKey, v: World)
    requires ChainsOk(w) && Can(w, a) && v == Do(w, a) && k in v.st.posts
    ensures k.fork in v.chains
  {
  }

  lemma StepKeeps(w: World, a: Act)
    requires ChainsOk(w) && Can(w, a)
    ensures ChainsOk(Do(w, a))
  {
    var v := Do(w, a);
    forall f | f in v.chains ensures Chained(v.chains[f]) { OthersChained(w, a, f, v); }
    forall f | f in v.st.forks ensures ForkOk(v, f) {
      if a.Append? { PostKept(w, a, f, v); } else { OthersKept(w, a, f, v); }
    }
    forall k | k in v.st.posts ensures k.fork in v.chains { KeysKept(w, a, k, v); }
  }

  ghost predicate Runs(w: World, acts: seq<Act>, last: World)
    decreases |acts|
  {
    if acts == [] then w == last else Can(w, acts[0]) && Runs(Do(w, acts[0]), acts[1..], last)
  }

  const NOTHING := World(Rows({}, map[], map[], {}, 1), map[])

  lemma {:induction false} RunKeeps(w: World, acts: seq<Act>, last: World)
    requires ChainsOk(w) && Runs(w, acts, last)
    ensures ChainsOk(last)
    decreases |acts|
  {
    if acts != [] {
      StepKeeps(w, acts[0]);
      RunKeeps(Do(w, acts[0]), acts[1..], last);
    }
  }

  lemma {:induction false} Rises(chain: seq<Report>, i: nat, j: nat)
    requires Chained(chain) && i < j < |chain|
    ensures chain[i].upTo <= chain[j].from
  {
    assert EndOf(chain[..j]) == chain[j - 1].upTo;
    if i + 1 < j { Rises(chain, i, j - 1); }
  }

  /** Over every run of reports, retried and at once: those posted for a fork cover consecutive ranges,
      none empty, none overlapping, from 0 to the fork's last reported message. */
  lemma ReportsChain(acts: seq<Act>, last: World, f: string)
    requires Runs(NOTHING, acts, last) && f in last.st.forks
    ensures f in last.chains && Chained(last.chains[f]) && last.st.forks[f].reported == EndOf(last.chains[f])
    ensures forall i, j :: 0 <= i < j < |last.chains[f]| ==> last.chains[f][i].upTo <= last.chains[f][j].from
    ensures last.st.forks[f].parent.Some? ==>
      forall from, upTo :: ReportKey(last.st.forks[f].parent.value, f, from, upTo) in last.st.posts <==> Ranges(last.chains[f], from, upTo)
  {
    RunKeeps(NOTHING, acts, last);
    assert ForkOk(last, f);
    forall i, j | 0 <= i < j < |last.chains[f]| ensures last.chains[f][i].upTo <= last.chains[f][j].from { Rises(last.chains[f], i, j); }
  }

  /** A report posted again, while its fork and its parent are there, gets its first post. */
  lemma {:induction false} RetryGetsFirst(w: World, r: Report, acts: seq<Act>, last: World)
    requires Can(w, Append(r)) && Posts(w.st, r).1.Posted? && Runs(Do(w, Append(r)), acts, last)
    requires r.fork in last.st.forks && r.parent in last.st.sessions && last.st.forks[r.fork].parent == Some(r.parent)
    requires forall i :: 0 <= i < |acts| ==> acts[i] != Remove(r.parent)
    ensures Posts(last.st, r) == (last.st, Posts(w.st, r).1)
  {
    PostStays(Do(w, Append(r)), KeyOfReport(r), acts, last);
  }

  lemma {:induction false} PostStays(w: World, k: ReportKey, acts: seq<Act>, last: World)
    requires k in w.st.posts && Runs(w, acts, last) && forall i :: 0 <= i < |acts| ==> acts[i] != Remove(k.session)
    ensures k in last.st.posts && last.st.posts[k] == w.st.posts[k]
    decreases |acts|
  {
    if acts != [] {
      PostStays(Do(w, acts[0]), k, acts[1..], last);
    }
  }

  // --- The program's store ---

  class ReportStore {
    var sessions: set<string>
    var forks: map<string, Fork>
    var posts: map<ReportKey, nat>
    var members: set<(string, string)>
    var next: nat

    constructor ()
      ensures S() == Rows({}, map[], map[], {}, 1)
    {
      sessions, forks, posts, members, next := {}, map[], map[], {}, 1;
    }

    function S(): Rows
      reads this
    {
      Rows(sessions, forks, posts, members, next)
    }

    /** One transaction, which holds the fork's row. */
    method AppendForkReport(r: Report) returns (out: Outcome)
      modifies this
      ensures (S(), out) == Posts(old(S()), r)
    {
      var parentGone := r.parent !in sessions;
      if r.fork !in forks {
        return ForkGone;
      }
      var f := forks[r.fork];
      if parentGone || f.parent != Some(r.parent) {
        return ParentGone;
      }
      var key := KeyOfReport(r);
      if key in posts {
        return Posted(posts[key]); // posted already: a retry
      }
      if f.reported != r.from {
        return Stale;
      }
      if (r.fork, r.reporter) !in members {
        return NotForkMember;
      }
      if (r.parent, r.reporter) !in members {
        return NotParentMember;
      }
      posts := posts[key := next];
      out := Posted(next);
      next := next + 1;
      forks := forks[r.fork := f.(reported := r.upTo)];
    }
  }
}
