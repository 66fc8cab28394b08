/** sse/hub.go: bounded, evicting, sweeping pub/sub, against the full log of its events. */
module Sse {
  import opened Text
  import opened Sorting

  /** The length at which a subscriber's queue is full: the next event closes it. */
  const BUFFER := 64
  const MINUTE := 60_000_000_000

  datatype Event = Event(id: string, data: string)

  datatype Topic = Topic(subs: seq<nat>, recent: seq<Event>, seqs: seq<nat>, floor: nat, used: int)

  /** A client's channel: what waits in it, and the topics it is on. */
  datatype Subscriber = Subscriber(queue: seq<Event>, closed: bool, topics: seq<string>)

  /** The hub's fields; subscribers by number, as they came. */
  datatype State = State(
    epoch: string, keep: nat, idle: int,
    seqNo: nat, topics: map<string, Topic>, swept: int, dropped: nat,
    subs: map<nat, Subscriber>, next: nat)

  datatype Start = Start(sub: nat, missed: seq<Event>, stale: bool, at: string)

  // --- Event IDs ---

  function Id(epoch: string, n: nat): string { epoch + "-" + Itoa(n) }

  /** The seq of an ID of this hub; None for another epoch's, or one this hub never gave. */
  function Parse(h: State, id: string): Option<nat> {
    var i := IndexOf(id, '-');
    if i == |id| || id[..i] != h.epoch || !AllDigits(id[i + 1..]) then None
    else if NumberOf(id[i + 1..]) <= h.seqNo then Some(NumberOf(id[i + 1..])) else None
  }

  lemma ParseOfId(h: State, epoch: string, n: nat)
    requires '-' !in epoch
    ensures Parse(h, Id(epoch, n)) == if epoch == h.epoch && n <= h.seqNo then Some(n) else None
  {
    var id := epoch + ['-'] + Itoa(n);
    IndexOfConcat(epoch, '-', Itoa(n));
    assert id[..|epoch|] == epoch && id[|epoch| + 1..] == Itoa(n);
    NumberOfDecimal(n);
  }

  // --- The steps ---

  function Max(a: nat, b: nat): nat { if a < b then b else a }

  /** A topic's last known seq: of its last event, or its floor. */
  function Top(t: Topic): nat { if t.seqs == [] then t.floor else Max(t.floor, t.seqs[|t.seqs| - 1]) }

  /** The topics a sweep drops. */
  function Gone(h: State, now: int): set<string> {
    set name | name in h.topics && h.topics[name].subs == [] && now - h.topics[name].used >= h.idle
  }

  /** d is what is dropped once the topics gone are. */
  ghost predicate DropsTo(h: State, gone: set<string>, d: nat) {
    && h.dropped <= d
    && (forall name :: name in gone && name in h.topics ==> Top(h.topics[name]) <= d)
    && (d == h.dropped || exists name :: name in gone && name in h.topics && Top(h.topics[name]) == d)
  }

  ghost function Dropped(h: State, gone: set<string>): (d: nat)
    requires gone <= h.topics.Keys
    ensures DropsTo(h, gone, d)
  {
    if gone == {} then h.dropped else
    var name :| name in gone;
    var rest := Dropped(h, gone - {name});
    assert forall other :: other in gone ==> other == name || other in gone - {name};
    Max(rest, Top(h.topics[name]))
  }

  ghost function Swept(h: State, now: int): State {
    if now - h.swept < MINUTE then h
    else h.(swept := now, dropped := Dropped(h, Gone(h, now)), topics := h.topics - Gone(h, now))
  }

  /** The topic, one created anew knowing every event after the swept ones. */
  function TopicOf(h: State, name: string, now: int): Topic {
    if name in h.topics then h.topics[name] else Topic([], [], [], h.dropped, now)
  }

  /** Makes room for one event: the topic forgets its oldest ones. */
  function Evicted(t: Topic, keep: nat): Topic
    requires keep > 0 && |t.recent| == |t.seqs|
  {
    if |t.seqs| < keep then t else
    var n := |t.seqs| - keep + 1;
    t.(floor := t.seqs[n - 1], recent := t.recent[n..], seqs := t.seqs[n..])
  }

  predicate Takes(s: Subscriber) { !s.closed && |s.queue| < BUFFER }

  function Sent(s: Subscriber, ev: Event): Subscriber {
    if s.closed then s else if |s.queue| < BUFFER then s.(queue := s.queue + [ev]) else s.(closed := true)
  }

  function Takers(ids: seq<nat>, subs: map<nat, Subscriber>): seq<nat> {
    if ids == [] then [] else
    var n := |ids| - 1;
    Takers(ids[..n], subs) + if ids[n] in subs && Takes(subs[ids[n]]) then [ids[n]] else []
  }

  function SentTo(subs: map<nat, Subscriber>, ids: seq<nat>, ev: Event): map<nat, Subscriber> {
    map id | id in subs :: if id in ids then Sent(subs[id], ev) else subs[id]
  }

  /** The channels one after another: those that take the event, and what becomes of each. */
  function Sending(ids: seq<nat>, subs: map<nat, Subscriber>, ev: Event): (seq<nat>, map<nat, Subscriber>) {
    if ids == [] then ([], subs) else
    var n := |ids| - 1;
    var (kept, now) := Sending(ids[..n], subs, ev);
    if ids[n] !in now then (kept, now)
    else (if Takes(now[ids[n]]) then kept + [ids[n]] else kept, now[ids[n] := Sent(now[ids[n]], ev)])
  }

  /** The event, after the sweep. */
  ghost function Publishes(h: State, now: int, name: string, data: string): State
    requires h.keep > 0 && |TopicOf(h, name, now).recent| == |TopicOf(h, name, now).seqs|
  {
    var n := h.seqNo + 1;
    var ev := Event(Id(h.epoch, n), data);
    var t := Evicted(TopicOf(h, name, now), h.keep);
    var (kept, subs) := Sending(t.subs, h.subs, ev);
    h.(seqNo := n, topics := h.topics[name := Topic(kept, t.recent + [ev], t.seqs + [n], t.floor, now)], subs := subs)
  }

  datatype Missed = Missed(n: nat, ev: Event)

  predicate MissedLe(a: Missed, b: Missed) { a.n <= b.n }

  /** The events after last of those a topic keeps. */
  function After(seqs: seq<nat>, recent: seq<Event>, last: nat): seq<Missed>
    requires |recent| == |seqs|
    decreases |seqs|
  {
    if seqs == [] then [] else
    var n := |seqs| - 1;
    After(seqs[..n], recent[..n], last) + if seqs[n] > last then [Missed(seqs[n], recent[n])] else []
  }

  /** The topics, subscribed to; one at a time, those created on the way included. */
  function Joined(h: State, now: int, names: seq<string>, sub: nat): map<string, Topic> {
    if names == [] then h.topics else
    var n := |names| - 1;
    var topics := Joined(h, now, names[..n], sub);
    var t := TopicOf(h.(topics := topics), names[n], now);
    topics[names[n] := t.(subs := t.subs + [sub])]
  }

  predicate Even(h: State) { forall name :: name in h.topics ==> |h.topics[name].recent| == |h.topics[name].seqs| }

  /** Whether a topic does not know what came after last. */
  predicate Forgot(h: State, names: seq<string>, last: Option<nat>) {
    exists i :: 0 <= i < |names| && (last.None? || last.value < TopicOf(h, names[i], 0).floor)
  }

  function Collected(h: State, names: seq<string>, last: nat): seq<Missed>
    requires Even(h)
  {
    if names == [] then [] else
    var n := |names| - 1;
    var t := TopicOf(h, names[n], 0);
    Collected(h, names[..n], last) + After(t.seqs, t.recent, last)
  }

  function Events(missed: seq<Missed>): (r: seq<Event>)
    ensures |r| == |missed| && forall i :: 0 <= i < |r| ==> r[i] == missed[i].ev
  {
    seq(|missed|, i requires 0 <= i < |missed| => missed[i].ev)
  }

  /** A subscriber added, after the sweep. */
  function Subscribes(h: State, now: int, names: seq<string>): State {
    h.(topics := Joined(h, now, names, h.next), subs := h.subs[h.next := Subscriber([], false, names)], next := h.next + 1)
  }

  function StartOf(h: State, lastID: string, names: seq<string>): Start
    requires Even(h)
  {
    var last := Parse(h, lastID);
    var stale := lastID != "" && Forgot(h, names, last);
    Start(h.next,
          if stale || lastID == "" || last.None? then [] else Events(Sort(Collected(h, names, last.value), MissedLe)),
          stale, Id(h.epoch, h.seqNo))
  }

  function Removed(ids: seq<nat>, sub: nat): seq<nat> {
    if ids == [] then [] else
    Removed(ids[..|ids| - 1], sub) + if ids[|ids| - 1] == sub then [] else [ids[|ids| - 1]]
  }

  function Unsubscribes(h: State, now: int, sub: nat): State
    requires sub in h.subs
  {
    h.(topics := map name | name in h.topics ::
         if name in h.subs[sub].topics then h.topics[name].(subs := Removed(h.topics[name].subs, sub), used := now) else h.topics[name],
       subs := h.subs[sub := h.subs[sub].(closed := true)])
  }

  /** The topics a page rendered now shows stay for the stream it is about to open. */
  ghost function Positions(h: State, now: int, names: seq<string>): State {
    if names == [] then h else
    var n := |names| - 1;
    var p := Positions(h, now, names[..n]);
    p.(topics := p.topics[names[n] := TopicOf(p, names[n], now).(used := now)])
  }

  // --- What each step does, topic by topic and channel by channel ---

  /** Making room forgets the oldest events only, and only as many as it must: the topic keeps the keep - 1
      latest, all of them when it has fewer; who listens stays. */
  lemma EvictedCounts(t: Topic, keep: nat)
    requires keep > 0 && |t.recent| == |t.seqs|
    ensures var e := Evicted(t, keep); var n := if |t.seqs| < keep then |t.seqs| else keep - 1;
      && |e.seqs| == n && e.seqs == t.seqs[|t.seqs| - n..] && e.recent == t.recent[|t.seqs| - n..]
      && e.floor == (if n == |t.seqs| then t.floor else t.seqs[|t.seqs| - n - 1]) && e.subs == t.subs && e.used == t.used
  {
  }

  /** A sweep comes a minute after the last at the soonest; it takes the topics nobody listens to, unused for the
      idle time, and no other; what is dropped is then the last any of them knew. */
  lemma SweptMeans(h: State, now: int, name: string)
    ensures var r := Swept(h, now);
      && (name in r.topics <==> name in h.topics && (now - h.swept < 60_000_000_000 || h.topics[name].subs != [] || now - h.topics[name].used < h.idle))
      && (name in r.topics ==> r.topics[name] == h.topics[name]) && r.subs == h.subs && r.seqNo == h.seqNo && r.next == h.next
      && (now - h.swept < 60_000_000_000 ==> r == h) && (now - h.swept >= 60_000_000_000 ==> r.swept == now)
  {
  }

  /** What a topic knew last: its latest event, else its floor. */
  ghost predicate Knew(t: Topic, n: nat) {
    n == if t.seqs != [] && t.seqs[|t.seqs| - 1] > t.floor then t.seqs[|t.seqs| - 1] else t.floor
  }

  lemma DroppedMeans(h: State, now: int)
    ensures var r := Swept(h, now);
      && r.dropped >= h.dropped
      && (forall name, n: nat :: name in h.topics && name !in r.topics && Knew(h.topics[name], n) ==> n <= r.dropped)
      && (r.dropped == h.dropped || exists name :: name in h.topics && name !in r.topics && Knew(h.topics[name], r.dropped))
  {
    if now - h.swept >= MINUTE {
      var gone, d := Gone(h, now), Swept(h, now).dropped;
      assert DropsTo(h, gone, d);
      if d != h.dropped {
        var name :| name in gone && name in h.topics && Top(h.topics[name]) == d;
        assert Knew(h.topics[name], d);
      }
    }
  }

  /** A client that missed nothing gets nothing and is not stale; one whose ID is not of this hub is stale. */
  lemma OtherStarts(h: State, lastID: string, names: seq<string>)
    requires Even(h)
    ensures lastID == "" ==> !StartOf(h, lastID, names).stale && StartOf(h, lastID, names).missed == []
    ensures lastID != "" && Parse(h, lastID).None? && names != [] ==> StartOf(h, lastID, names).stale && StartOf(h, lastID, names).missed == []
    ensures StartOf(h, lastID, names).sub == h.next && StartOf(h, lastID, names).at == h.epoch + "-" + Itoa(h.seqNo)
  {
    if names != [] { assert TopicOf(h, names[0], 0).floor >= 0; }
  }

  /** Only an ID of this hub's is read: its epoch, a dash, and a seq it gave in digits. */
  lemma ParsedMeans(h: State, id: string)
    ensures Parse(h, id).Some? ==>
      Parse(h, id).value <= h.seqNo && exists digits :: AllDigits(digits) && id == h.epoch + ['-'] + digits && NumberOf(digits) == Parse(h, id).value
  {
    if Parse(h, id).Some? {
      var i := IndexOf(id, '-');
      assert id == id[..i] + ['-'] + id[i + 1..];
    }
  }

  // --- The full log ---

  /** An event as it was published; the first has seq 1. */
  datatype Logged = Logged(topic: string, ev: Event)

  /** The seqs of the log's events of these topics after after. */
  function Seqs(log: seq<Logged>, names: set<string>, after: nat): seq<nat> {
    if log == [] then [] else
    var n := |log|;
    Seqs(log[..n - 1], names, after) + if n > after && log[n - 1].topic in names then [n] else []
  }

  lemma {:induction false} SeqsMean(log: seq<Logged>, names: set<string>, after: nat)
    ensures forall n :: n in Seqs(log, names, after) <==> after < n <= |log| && log[n - 1].topic in names
    ensures Rising(Seqs(log, names, after))
  {
    if log != [] {
      var s := Seqs(log[..|log| - 1], names, after);
      SeqsMean(log[..|log| - 1], names, after);
      assert forall i :: 0 <= i < |s| ==> s[i] in s;
    }
  }

  predicate Rising(s: seq<nat>) { forall i, j :: 0 <= i < j < |s| ==> s[i] < s[j] }

  lemma {:induction false} OneRising(a: seq<nat>, b: seq<nat>)
    requires Rising(a) && Rising(b) && forall n :: n in a <==> n in b
    ensures a == b
  {
    assert a != [] ==> a[|a| - 1] in b;
    assert b != [] ==> b[|b| - 1] in a;
    if a != [] {
      var m, n := |a| - 1, |b| - 1;
      assert a[m] == b[n];
      forall x ensures x in a[..m] <==> x in b[..n] {
        assert x in a <==> x == a[m] || x in a[..m];
        assert x in b <==> x == b[n] || x in b[..n];
      }
      OneRising(a[..m], b[..n]);
    }
  }

  function Logs(log: seq<Logged>, seqs: seq<nat>): (r: seq<Event>)
    requires forall i :: 0 <= i < |seqs| ==> 0 < seqs[i] <= |log|
    ensures |r| == |seqs| && forall i :: 0 <= i < |r| ==> r[i] == log[seqs[i] - 1].ev
  {
    seq(|seqs|, i requires 0 <= i < |seqs| => log[seqs[i] - 1].ev)
  }

  /** The events of these topics after after, in the order they were published. */
  ghost function Since(log: seq<Logged>, names: set<string>, after: nat): seq<Event> {
    SeqsMean(log, names, after);
    var s := Seqs(log, names, after);
    assert forall i :: 0 <= i < |s| ==> s[i] in s;
    Logs(log, s)
  }

  // --- What the hub keeps of the log ---

  ghost predicate IdsOf(h: State, log: seq<Logged>) {
    |log| == h.seqNo && '-' !in h.epoch && forall i :: 0 <= i < |log| ==> log[i].ev.id == Id(h.epoch, i + 1)
  }

  /** A live topic keeps exactly its log after its floor. */
  ghost predicate Keeps(t: Topic, name: string, log: seq<Logged>) {
    t.floor <= |log| && t.seqs == Seqs(log, {name}, t.floor) && t.recent == Since(log, {name}, t.floor)
  }

  /** An absent topic has no event after what was dropped. */
  ghost predicate Forgotten(h: State, log: seq<Logged>, name: string) { Seqs(log, {name}, h.dropped) == [] }

  ghost predicate KeepsLog(h: State, log: seq<Logged>) {
    && h.keep > 0 && h.dropped <= |log|
    && (forall name :: name in h.topics ==> Keeps(h.topics[name], name, log))
    && (forall name :: name !in h.topics ==> Forgotten(h, log, name))
  }

  predicate Distinct<T(==)>(s: seq<T>) { forall i, j :: 0 <= i < j < |s| ==> s[i] != s[j] }

  /** An open subscriber is on each of its topics, once. */
  ghost predicate Subscribed(h: State) {
    && (forall name :: name in h.topics ==> Distinct(h.topics[name].subs))
    && (forall name, id :: name in h.topics && id in h.topics[name].subs ==> id in h.subs && name in h.subs[id].topics)
    && (forall id :: id in h.subs ==> id < h.next && Distinct(h.subs[id].topics))
    && (forall id, name :: id in h.subs && !h.subs[id].closed && name in h.subs[id].topics ==> name in h.topics && id in h.topics[name].subs)
  }

  ghost predicate Valid(h: State, log: seq<Logged>) { IdsOf(h, log) && KeepsLog(h, log) && Subscribed(h) }

  /** The topic as it would be found or made: it knows all of its log after its floor either way. */
  lemma TopicKeeps(h: State, log: seq<Logged>, name: string, now: int)
    requires KeepsLog(h, log)
    ensures Keeps(TopicOf(h, name, now), name, log)
  {
    if name !in h.topics { assert Forgotten(h, log, name); }
  }

  lemma SeqsFrom(log: seq<Logged>, names: set<string>, after: nat, k: nat)
    requires 0 < k <= |Seqs(log, names, after)|
    ensures Seqs(log, names, Seqs(log, names, after)[k - 1]) == Seqs(log, names, after)[k..]
  {
    var s := Seqs(log, names, after);
    SeqsMean(log, names, after);
    SeqsMean(log, names, s[k - 1]);
    assert s[k - 1] in s;
    forall n ensures n in Seqs(log, names, s[k - 1]) <==> n in s[k..] {
      if n in s && n > s[k - 1] {
        var i :| 0 <= i < |s| && s[i] == n;
        assert s[k..][i - k] == n;
      }
      if n in s[k..] {
        var i :| 0 <= i < |s| - k && s[k..][i] == n;
        assert s[i + k] == n;
      }
    }
    OneRising(Seqs(log, names, s[k - 1]), s[k..]);
  }

  lemma SeqsInLog(log: seq<Logged>, names: set<string>, after: nat)
    ensures forall i :: 0 <= i < |Seqs(log, names, after)| ==> 0 < Seqs(log, names, after)[i] <= |log|
  {
    SeqsMean(log, names, after);
    var s := Seqs(log, names, after);
    assert forall i :: 0 <= i < |s| ==> s[i] in s;
  }

  lemma SinceIs(log: seq<Logged>, names: set<string>, after: nat, s: seq<nat>)
    requires s == Seqs(log, names, after) && forall i :: 0 <= i < |s| ==> 0 < s[i] <= |log|
    ensures Since(log, names, after) == Logs(log, s)
  {
  }

  /** After the k-th event of these topics come the ones past it. */
  lemma SinceFrom(log: seq<Logged>, names: set<string>, after: nat, k: nat)
    requires 0 < k <= |Seqs(log, names, after)|
    ensures Seqs(log, names, after)[k - 1] <= |log|
    ensures Seqs(log, names, Seqs(log, names, after)[k - 1]) == Seqs(log, names, after)[k..]
    ensures Since(log, names, Seqs(log, names, after)[k - 1]) == Since(log, names, after)[k..]
  {
    var s := Seqs(log, names, after);
    SeqsInLog(log, names, after);
    SeqsFrom(log, names, after, k);
    SinceIs(log, names, after, s);
    SinceIs(log, names, s[k - 1], s[k..]);
    SameLogs(log, s, k);
  }

  lemma SameLogs(log: seq<Logged>, s: seq<nat>, k: nat)
    requires k <= |s| && forall i :: 0 <= i < |s| ==> 0 < s[i] <= |log|
    ensures Logs(log, s[k..]) == Logs(log, s)[k..]
  {
  }

  /** Making room keeps exactly the log after the new floor. */
  lemma EvictedKeeps(t: Topic, name: string, log: seq<Logged>, keep: nat)
    requires keep > 0 && Keeps(t, name, log)
    ensures Keeps(Evicted(t, keep), name, log) && |Evicted(t, keep).seqs| < keep
  {
    if |t.seqs| >= keep { SinceFrom(log, {name}, t.floor, |t.seqs| - keep + 1); }
  }

  lemma SinceAppended(log: seq<Logged>, e: Logged, names: set<string>, after: nat)
    requires after <= |log|
    ensures Seqs(log + [e], names, after) == Seqs(log, names, after) + if e.topic in names then [|log| + 1] else []
    ensures Since(log + [e], names, after) == Since(log, names, after) + if e.topic in names then [e.ev] else []
  {
    assert (log + [e])[..|log|] == log;
    SeqsMean(log, names, after);
    var s := Seqs(log, names, after);
    assert forall i :: 0 <= i < |s| ==> s[i] in s;
  }

  lemma NoneAfter(log: seq<Logged>, name: string, low: nat, high: nat)
    requires low <= high && (Seqs(log, {name}, low) == [] || Seqs(log, {name}, low)[|Seqs(log, {name}, low)| - 1] <= high)
    ensures Seqs(log, {name}, high) == []
  {
    var s := Seqs(log, {name}, low);
    SeqsMean(log, {name}, low);
    SeqsMean(log, {name}, high);
    var hs := Seqs(log, {name}, high);
    forall n ensures n !in hs {
      if n in s {
        var i :| 0 <= i < |s| && s[i] == n;
        assert s[i] <= s[|s| - 1];
      }
    }
    assert forall n :: n in hs <==> n in [];
    OneRising(hs, []);
  }

  lemma SweptForgotten(h: State, log: seq<Logged>, gone: set<string>, d: nat, name: string)
    requires KeepsLog(h, log) && DropsTo(h, gone, d) && (name in h.topics ==> name in gone)
    ensures Seqs(log, {name}, d) == []
  {
    if name in h.topics {
      assert Keeps(h.topics[name], name, log) && Top(h.topics[name]) <= d;
      NoneAfter(log, name, h.topics[name].floor, d);
    } else {
      assert Forgotten(h, log, name);
      NoneAfter(log, name, h.dropped, d);
    }
  }

  lemma SweptKeeps(h: State, log: seq<Logged>, now: int, r: State)
    requires KeepsLog(h, log) && r == Swept(h, now)
    ensures KeepsLog(r, log)
  {
    if now - h.swept >= MINUTE {
      var gone := Gone(h, now);
      DroppedBelow(h, log, gone);
      forall name | name !in r.topics ensures Forgotten(r, log, name) { SweptForgotten(h, log, gone, r.dropped, name); }
    }
  }

  /** A topic someone listens to is never swept. */
  lemma SweptSubscribed(h: State, now: int, r: State)
    requires Subscribed(h) && r == Swept(h, now)
    ensures Subscribed(r)
  {
    forall id, name | id in r.subs && !r.subs[id].closed && name in r.subs[id].topics
      ensures name in r.topics && id in r.topics[name].subs
    {
      assert name in h.topics && id in h.topics[name].subs;
    }
  }

  /** Nothing is dropped that was not published. */
  lemma DroppedBelow(h: State, log: seq<Logged>, gone: set<string>)
    requires KeepsLog(h, log) && gone <= h.topics.Keys
    ensures Dropped(h, gone) <= |log|
  {
    var d := Dropped(h, gone);
    assert DropsTo(h, gone, d);
    if d != h.dropped {
      var name :| name in gone && name in h.topics && Top(h.topics[name]) == d;
      var t := h.topics[name];
      assert Keeps(t, name, log);
      SeqsMean(log, {name}, t.floor);
      assert t.seqs != [] ==> t.seqs[|t.seqs| - 1] in t.seqs;
    }
  }
  // --- Publishing ---

  lemma {:induction false} TakersMean(ids: seq<nat>, subs: map<nat, Subscriber>)
    ensures forall id :: id in Takers(ids, subs) <==> id in ids && id in subs && Takes(subs[id])
    ensures Distinct(ids) ==> Distinct(Takers(ids, subs))
  {
    if ids != [] {
      var n := |ids| - 1;
      var rest := Takers(ids[..n], subs);
      TakersMean(ids[..n], subs);
      assert ids == ids[..n] + [ids[n]];
      assert Distinct(ids) ==> ids[n] !in ids[..n];
      assert forall i :: 0 <= i < |rest| ==> rest[i] in rest;
    }
  }

  lemma SentToOneMore(subs: map<nat, Subscriber>, ids: seq<nat>, ev: Event)
    requires ids != [] && ids[|ids| - 1] !in ids[..|ids| - 1]
    ensures var n := |ids| - 1;
      SentTo(subs, ids, ev) ==
        if ids[n] in subs then SentTo(subs, ids[..n], ev)[ids[n] := Sent(subs[ids[n]], ev)] else SentTo(subs, ids[..n], ev)
  {
    var n := |ids| - 1;
    assert ids == ids[..n] + [ids[n]];
  }

  /** On distinct channels: each is sent the event once. */
  lemma {:induction false} SendingMeans(ids: seq<nat>, subs: map<nat, Subscriber>, ev: Event)
    requires Distinct(ids)
    ensures Sending(ids, subs, ev) == (Takers(ids, subs), SentTo(subs, ids, ev))
  {
    if ids == [] {
      assert SentTo(subs, ids, ev) == subs;
    } else {
      var n := |ids| - 1;
      SendingMeans(ids[..n], subs, ev);
      assert ids[n] !in ids[..n];
      SentToOneMore(subs, ids, ev);
      if ids[n] in subs { assert SentTo(subs, ids[..n], ev)[ids[n]] == subs[ids[n]]; }
      assert Takers(ids[..n], subs) + [] == Takers(ids[..n], subs);
    }
  }

  /** Another topic's event leaves a topic as it was. */
  lemma OtherKeeps(t: Topic, name: string, log: seq<Logged>, e: Logged)
    requires Keeps(t, name, log) && e.topic != name
    ensures Keeps(t, name, log + [e])
  {
    SinceAppended(log, e, {name}, t.floor);
  }

  /** Its own is the last it keeps. */
  lemma OwnKeeps(t: Topic, log: seq<Logged>, e: Logged, keep: nat, r: Topic)
    requires keep > 0 && Keeps(t, e.topic, log) && r.floor == Evicted(t, keep).floor
    requires r.seqs == Evicted(t, keep).seqs + [|log| + 1] && r.recent == Evicted(t, keep).recent + [e.ev]
    ensures Keeps(r, e.topic, log + [e]) && |r.recent| <= keep
  {
    EvictedKeeps(t, e.topic, log, keep);
    SinceAppended(log, e, {e.topic}, r.floor);
  }

  lemma PublishKeeps(h: State, log: seq<Logged>, now: int, e: Logged, r: State)
    requires KeepsLog(h, log) && |log| == h.seqNo && e.ev.id == Id(h.epoch, h.seqNo + 1)
    requires |TopicOf(h, e.topic, now).recent| == |TopicOf(h, e.topic, now).seqs|
    requires r == Publishes(h, now, e.topic, e.ev.data)
    ensures KeepsLog(r, log + [e])
  {
    TopicKeeps(h, log, e.topic, now);
    OwnKeeps(TopicOf(h, e.topic, now), log, e, h.keep, r.topics[e.topic]);
    forall other | other in h.topics && other != e.topic ensures Keeps(h.topics[other], other, log + [e]) {
      OtherKeeps(h.topics[other], other, log, e);
    }
    forall other | other !in r.topics ensures Forgotten(r, log + [e], other) {
      assert Forgotten(h, log, other);
      SinceAppended(log, e, {other}, h.dropped);
    }
  }

  ghost predicate SentOn(h: State, name: string, ids: seq<nat>, ev: Event, r: State) {
    && ids == (if name in h.topics then h.topics[name].subs else [])
    && name in r.topics && r.topics[name].subs == Takers(ids, h.subs) && r.subs == SentTo(h.subs, ids, ev) && r.next == h.next
    && forall other :: other != name ==> (other in h.topics <==> other in r.topics) && (other in h.topics ==> r.topics[other] == h.topics[other])
  }

  lemma StillOn(h: State, name: string, ids: seq<nat>, ev: Event, r: State, id: nat, other: string)
    requires Subscribed(h) && Distinct(ids) && SentOn(h, name, ids, ev, r)
    requires id in r.subs && !r.subs[id].closed && other in r.subs[id].topics
    ensures other in r.topics && id in r.topics[other].subs
  {
    TakersMean(ids, h.subs);
    assert !h.subs[id].closed && other in h.subs[id].topics;
    assert other in h.topics && id in h.topics[other].subs;
  }

  lemma OnlyOn(h: State, name: string, ids: seq<nat>, ev: Event, r: State, other: string)
    requires Subscribed(h) && Distinct(ids) && SentOn(h, name, ids, ev, r) && other in r.topics
    ensures Distinct(r.topics[other].subs)
    ensures forall id :: id in r.topics[other].subs ==> id in r.subs && other in r.subs[id].topics
  {
    TakersMean(ids, h.subs);
  }

  lemma SentSubscribed(h: State, name: string, ids: seq<nat>, ev: Event, r: State)
    requires Subscribed(h) && Distinct(ids) && SentOn(h, name, ids, ev, r)
    ensures Subscribed(r)
  {
    forall id, other | id in r.subs && !r.subs[id].closed && other in r.subs[id].topics
      ensures other in r.topics && id in r.topics[other].subs
    {
      StillOn(h, name, ids, ev, r, id, other);
    }
    forall other | other in r.topics
      ensures Distinct(r.topics[other].subs) && forall id :: id in r.topics[other].subs ==> id in r.subs && other in r.subs[id].topics
    {
      OnlyOn(h, name, ids, ev, r, other);
    }
    forall id | id in r.subs ensures id < r.next && Distinct(r.subs[id].topics) { assert r.subs[id].topics == h.subs[id].topics; }
  }

  lemma PublishSubscribed(h: State, now: int, name: string, data: string, r: State)
    requires Subscribed(h) && h.keep > 0 && |TopicOf(h, name, now).recent| == |TopicOf(h, name, now).seqs|
    requires r == Publishes(h, now, name, data)
    ensures Subscribed(r)
  {
    var ids, ev := TopicOf(h, name, now).subs, Event(Id(h.epoch, h.seqNo + 1), data);
    SendingMeans(ids, h.subs, ev);
    SentSubscribed(h, name, ids, ev, r);
  }
  // --- Subscribing ---

  ghost predicate InLog(log: seq<Logged>, m: Missed, after: nat) {
    after < m.n <= |log| && m.ev == log[m.n - 1].ev
  }

  /** No seq twice. */
  predicate Once(c: seq<Missed>) { forall i, j :: 0 <= i < j < |c| ==> Differ(c[i], c[j]) }

  predicate Differ(a: Missed, b: Missed) { a.n != b.n }

  ghost predicate Kept(seqs: seq<nat>, recent: seq<Event>, log: seq<Logged>) {
    |recent| == |seqs| && forall i :: 0 <= i < |seqs| ==> 0 < seqs[i] <= |log| && recent[i] == log[seqs[i] - 1].ev
  }

  lemma {:induction false} AfterHas(seqs: seq<nat>, recent: seq<Event>, last: nat, i: nat)
    requires |recent| == |seqs| && i < |seqs| && seqs[i] > last
    ensures Missed(seqs[i], recent[i]) in After(seqs, recent, last)
  {
    var n := |seqs| - 1;
    if i < n { AfterHas(seqs[..n], recent[..n], last, i); }
  }

  lemma {:induction false} AfterOnly(seqs: seq<nat>, recent: seq<Event>, last: nat, m: Missed) returns (i: nat)
    requires |recent| == |seqs| && m in After(seqs, recent, last)
    ensures i < |seqs| && seqs[i] > last && m == Missed(seqs[i], recent[i])
  {
    var n := |seqs| - 1;
    if m in After(seqs[..n], recent[..n], last) { i := AfterOnly(seqs[..n], recent[..n], last, m); } else { i := n; }
  }

  lemma AfterMeans(seqs: seq<nat>, recent: seq<Event>, last: nat, log: seq<Logged>, m: Missed)
    requires Kept(seqs, recent, log)
    ensures m in After(seqs, recent, last) <==> m.n in seqs && InLog(log, m, last)
  {
    if m in After(seqs, recent, last) {
      var i := AfterOnly(seqs, recent, last, m);
    }
    if m.n in seqs && InLog(log, m, last) {
      var i :| 0 <= i < |seqs| && seqs[i] == m.n;
      AfterHas(seqs, recent, last, i);
    }
  }

  lemma {:induction false} AfterOnce(seqs: seq<nat>, recent: seq<Event>, last: nat)
    requires |recent| == |seqs| && Rising(seqs)
    ensures Once(After(seqs, recent, last))
    ensures forall i :: 0 <= i < |After(seqs, recent, last)| ==> After(seqs, recent, last)[i].n in seqs
  {
    if seqs != [] {
      var n := |seqs| - 1;
      var a := After(seqs[..n], recent[..n], last);
      AfterOnce(seqs[..n], recent[..n], last);
      forall i | 0 <= i < |a| ensures a[i].n in seqs && a[i].n != seqs[n] {
        var k :| 0 <= k < n && seqs[..n][k] == a[i].n;
        assert seqs[k] < seqs[n];
      }
    }
  }

  lemma KeptOnes(t: Topic, name: string, log: seq<Logged>)
    requires Keeps(t, name, log)
    ensures Kept(t.seqs, t.recent, log) && Rising(t.seqs)
    ensures forall n :: n in t.seqs <==> t.floor < n <= |log| && log[n - 1].topic == name
  {
    SeqsMean(log, {name}, t.floor);
    assert forall i :: 0 <= i < |t.seqs| ==> t.seqs[i] in t.seqs;
  }

  lemma KeptPairs(t: Topic, name: string, log: seq<Logged>)
    requires Keeps(t, name, log)
    ensures Kept(t.seqs, t.recent, log)
  {
    SeqsMean(log, {name}, t.floor);
    assert forall i :: 0 <= i < |t.seqs| ==> t.seqs[i] in t.seqs;
  }

  lemma KeptMember(t: Topic, name: string, log: seq<Logged>, n: nat)
    requires Keeps(t, name, log)
    ensures n in t.seqs <==> t.floor < n <= |log| && log[n - 1].topic == name
  {
    SeqsMean(log, {name}, t.floor);
  }

  /** What a topic that knows last gives is its log after last. */
  lemma AfterIsLog(t: Topic, last: nat, name: string, log: seq<Logged>, m: Missed)
    requires Keeps(t, name, log) && t.floor <= last
    ensures |t.recent| == |t.seqs|
    ensures m in After(t.seqs, t.recent, last) <==> InLog(log, m, last) && log[m.n - 1].topic == name
  {
    KeptPairs(t, name, log);
    KeptMember(t, name, log, m.n);
    AfterMeans(t.seqs, t.recent, last, log, m);
  }

  /** The same of a topic found or made. */
  lemma FoundAfter(h: State, name: string, last: nat, log: seq<Logged>, m: Missed, t: Topic)
    requires KeepsLog(h, log) && t == TopicOf(h, name, 0) && t.floor <= last
    ensures |t.recent| == |t.seqs|
    ensures m in After(t.seqs, t.recent, last) <==> InLog(log, m, last) && log[m.n - 1].topic == name
  {
    TopicKeeps(h, log, name, 0);
    AfterIsLog(t, last, name, log, m);
  }

  lemma AfterGivenOnce(t: Topic, last: nat, name: string, log: seq<Logged>)
    requires Keeps(t, name, log)
    ensures |t.recent| == |t.seqs| && Once(After(t.seqs, t.recent, last))
  {
    KeptOnes(t, name, log);
    AfterOnce(t.seqs, t.recent, last);
  }

  /** A topic keeps every event of its own after its floor. */
  lemma KeepsAfterFloor(t: Topic, name: string, log: seq<Logged>, n: nat)
    requires Keeps(t, name, log) && t.floor < n <= |log| && log[n - 1].topic == name
    ensures n in t.seqs
  {
    SeqsMean(log, {name}, t.floor);
  }

  lemma ForgotLess(h: State, names: seq<string>, last: nat)
    requires names != [] && !Forgot(h, names, Some(last))
    ensures !Forgot(h, names[..|names| - 1], Some(last)) && TopicOf(h, names[|names| - 1], 0).floor <= last
  {
    assert forall i :: 0 <= i < |names| - 1 ==> names[..|names| - 1][i] == names[i];
  }

  lemma {:induction false} CollectedMeans(h: State, names: seq<string>, last: nat, log: seq<Logged>, m: Missed)
    requires KeepsLog(h, log) && Even(h) && !Forgot(h, names, Some(last))
    ensures m in Collected(h, names, last) <==> InLog(log, m, last) && log[m.n - 1].topic in names
  {
    if names != [] {
      var n := |names| - 1;
      var t := TopicOf(h, names[n], 0);
      ForgotLess(h, names, last);
      CollectedMeans(h, names[..n], last, log, m);
      FoundAfter(h, names[n], last, log, m, t);
      LastOf(names);
      assert m in Collected(h, names, last) <==> m in Collected(h, names[..n], last) || m in After(t.seqs, t.recent, last);
    }
  }

  lemma LastOf(names: seq<string>)
    requires names != []
    ensures forall name :: name in names <==> name in names[..|names| - 1] || name == names[|names| - 1]
  {
    assert names == names[..|names| - 1] + [names[|names| - 1]];
  }

  lemma OnceJoined(a: seq<Missed>, b: seq<Missed>)
    requires Once(a) && Once(b) && forall x, y :: x in a && y in b ==> Differ(x, y)
    ensures Once(a + b)
  {
  }

  lemma TopicsGiven(h: State, names: seq<string>, last: nat, log: seq<Logged>, x: Missed)
    requires KeepsLog(h, log) && Even(h) && !Forgot(h, names, Some(last)) && x in Collected(h, names, last)
    ensures 0 < x.n <= |log| && log[x.n - 1].topic in names
  {
    CollectedMeans(h, names, last, log, x);
  }

  lemma TopicGiven(h: State, name: string, last: nat, log: seq<Logged>, y: Missed, t: Topic)
    requires KeepsLog(h, log) && t == TopicOf(h, name, 0) && t.floor <= last && |t.recent| == |t.seqs| && y in After(t.seqs, t.recent, last)
    ensures 0 < y.n <= |log| && log[y.n - 1].topic == name
  {
    FoundAfter(h, name, last, log, y, t);
  }

  /** Events of some topics, and of another, are different ones. */
  lemma OtherTopics(a: seq<Missed>, b: seq<Missed>, log: seq<Logged>, names: seq<string>, name: string)
    requires name !in names && (forall x :: x in a ==> 0 < x.n <= |log| && log[x.n - 1].topic in names)
    requires forall y :: y in b ==> 0 < y.n <= |log| && log[y.n - 1].topic == name
    ensures forall x, y :: x in a && y in b ==> Differ(x, y)
  {
  }

  lemma LastApart(names: seq<string>)
    requires Distinct(names) && names != []
    ensures names[|names| - 1] !in names[..|names| - 1] && Distinct(names[..|names| - 1])
  {
  }

  lemma {:induction false} CollectedOnce(h: State, names: seq<string>, last: nat, log: seq<Logged>)
    requires KeepsLog(h, log) && Even(h) && !Forgot(h, names, Some(last)) && Distinct(names)
    ensures Once(Collected(h, names, last))
  {
    if names != [] {
      var n := |names| - 1;
      ForgotLess(h, names, last);
      CollectedOnce(h, names[..n], last, log);
      var a, t := Collected(h, names[..n], last), TopicOf(h, names[n], 0);
      var b := After(t.seqs, t.recent, last);
      TopicKeeps(h, log, names[n], 0);
      AfterGivenOnce(t, last, names[n], log);
      LastApart(names);
      forall x | x in a ensures 0 < x.n <= |log| && log[x.n - 1].topic in names[..n] { TopicsGiven(h, names[..n], last, log, x); }
      forall y | y in b ensures 0 < y.n <= |log| && log[y.n - 1].topic == names[n] { TopicGiven(h, names[n], last, log, y, t); }
      OtherTopics(a, b, log, names[..n], names[n]);
      OnceJoined(a, b);
    }
  }

  function SetOf(names: seq<string>): set<string> { set i | 0 <= i < |names| :: names[i] }

  /** The log's events of some topics after last, each once. */
  ghost predicate All(c: seq<Missed>, log: seq<Logged>, names: set<string>, last: nat) {
    Once(c) && forall m :: m in c <==> InLog(log, m, last) && log[m.n - 1].topic in names
  }

  function Ns(c: seq<Missed>): (r: seq<nat>)
    ensures |r| == |c| && forall i :: 0 <= i < |r| ==> r[i] == c[i].n
  {
    seq(|c|, i requires 0 <= i < |c| => c[i].n)
  }

  lemma SortedAll(c: seq<Missed>, log: seq<Logged>, names: set<string>, last: nat, s: seq<Missed>)
    requires All(c, log, names, last) && s == Sort(c, MissedLe)
    ensures Rising(Ns(s)) && All(s, log, names, last)
  {
    SortSorted(c, MissedLe);
    PermutedPairs(c, s, Differ);
    forall i, j | 0 <= i < j < |s| ensures s[i].n < s[j].n { assert MissedLe(s[i], s[j]) && Differ(s[i], s[j]); }
    forall m ensures m in s <==> m in c { assert m in multiset(s) <==> m in multiset(c); }
  }

  lemma AllIsSince(s: seq<Missed>, log: seq<Logged>, names: set<string>, last: nat)
    requires All(s, log, names, last) && Rising(Ns(s))
    ensures Events(s) == Since(log, names, last)
  {
    SeqsMean(log, names, last);
    forall n ensures n in Ns(s) <==> n in Seqs(log, names, last) {
      if last < n <= |log| && log[n - 1].topic in names {
        var m := Missed(n, log[n - 1].ev);
        assert m in s;
        var i :| 0 <= i < |s| && s[i] == m;
        assert Ns(s)[i] == n;
      }
      if n in Ns(s) {
        var i :| 0 <= i < |s| && Ns(s)[i] == n;
        assert s[i] in s;
      }
    }
    OneRising(Ns(s), Seqs(log, names, last));
    forall i | 0 <= i < |s| ensures Events(s)[i] == Since(log, names, last)[i] { assert s[i] in s && Ns(s)[i] == s[i].n; }
  }

  /** What a returning client missed: its topics' log after the last event it got. */
  lemma MissedIsSince(h: State, names: seq<string>, last: nat, log: seq<Logged>)
    requires KeepsLog(h, log) && Even(h) && !Forgot(h, names, Some(last)) && Distinct(names)
    ensures Events(Sort(Collected(h, names, last), MissedLe)) == Since(log, SetOf(names), last)
  {
    var c := Collected(h, names, last);
    CollectedOnce(h, names, last, log);
    forall m ensures m in c <==> InLog(log, m, last) && log[m.n - 1].topic in SetOf(names) {
      CollectedMeans(h, names, last, log, m);
    }
    SortedAll(c, log, SetOf(names), last, Sort(c, MissedLe));
    AllIsSince(Sort(c, MissedLe), log, SetOf(names), last);
  }
  /** An event a topic does not keep is one up to its floor, found or made. */
  lemma FloorPasses(h: State, log: seq<Logged>, name: string, n: nat)
    requires KeepsLog(h, log) && 0 < n <= |log| && log[n - 1].topic == name && (name !in h.topics || n !in h.topics[name].seqs)
    ensures n <= TopicOf(h, name, 0).floor
  {
    TopicKeeps(h, log, name, 0);
    if n > TopicOf(h, name, 0).floor { KeepsAfterFloor(TopicOf(h, name, 0), name, log, n); }
  }

  lemma Told(h: State, names: seq<string>, lastID: string, last: nat)
    requires Even(h) && lastID != "" && Parse(h, lastID) == Some(last)
    ensures StartOf(h, lastID, names).stale <==> Forgot(h, names, Some(last))
  {
  }

  /** A client is told its place is lost whenever an event it has not got is no longer kept. */
  lemma LostIsStale(h: State, log: seq<Logged>, names: seq<string>, lastID: string, last: nat, n: nat)
    requires KeepsLog(h, log) && Even(h) && lastID != "" && Parse(h, lastID) == Some(last)
    requires 0 < n <= |log| && n in Seqs(log, SetOf(names), last)
    requires var name := log[n - 1].topic; name !in h.topics || n !in h.topics[name].seqs
    ensures StartOf(h, lastID, names).stale
  {
    var name := log[n - 1].topic;
    assert last < n && name in SetOf(names) by { SeqsMean(log, SetOf(names), last); }
    var i :| 0 <= i < |names| && names[i] == name;
    FloorPasses(h, log, name, n);
    assert Forgot(h, names, Some(last));
    Told(h, names, lastID, last);
  }

  lemma {:induction false} JoinedMeans(h: State, now: int, names: seq<string>, sub: nat, name: string)
    requires Distinct(names)
    ensures var topics := Joined(h, now, names, sub);
      && (name in topics <==> name in h.topics || name in names)
      && (name in names ==> topics[name] == TopicOf(h, name, now).(subs := TopicOf(h, name, now).subs + [sub]))
      && (name in h.topics && name !in names ==> topics[name] == h.topics[name])
  {
    if names != [] {
      var n := |names| - 1;
      JoinedMeans(h, now, names[..n], sub, name);
      JoinedMeans(h, now, names[..n], sub, names[n]);
      assert names == names[..n] + [names[n]] && names[n] !in names[..n];
    }
  }

  /** Joining a topic leaves what it knows of its log, named twice or not. */
  lemma {:induction false} JoinedKnows(h: State, now: int, names: seq<string>, sub: nat, name: string)
    ensures var t, u := TopicOf(h.(topics := Joined(h, now, names, sub)), name, now), TopicOf(h, name, now);
      t.floor == u.floor && t.seqs == u.seqs && t.recent == u.recent
  {
    if names != [] {
      JoinedKnows(h, now, names[..|names| - 1], sub, name);
      JoinedKnows(h, now, names[..|names| - 1], sub, names[|names| - 1]);
    }
  }

  lemma SubscribeKeeps(h: State, log: seq<Logged>, now: int, names: seq<string>, r: State)
    requires KeepsLog(h, log) && Distinct(names) && r == Subscribes(h, now, names)
    ensures KeepsLog(r, log)
  {
    forall name | name in r.topics ensures Keeps(r.topics[name], name, log) {
      JoinedMeans(h, now, names, h.next, name);
      TopicKeeps(h, log, name, now);
    }
    forall name | name !in r.topics ensures Forgotten(r, log, name) {
      JoinedMeans(h, now, names, h.next, name);
      assert Forgotten(h, log, name);
    }
  }

  lemma SubscribeSubscribed(h: State, now: int, names: seq<string>, r: State)
    requires Subscribed(h) && Distinct(names) && r == Subscribes(h, now, names)
    ensures Subscribed(r)
  {
    assert h.next !in h.subs;
    forall name | name in r.topics
      ensures Distinct(r.topics[name].subs) && forall id :: id in r.topics[name].subs ==> id in r.subs && name in r.subs[id].topics
    {
      JoinedMeans(h, now, names, h.next, name);
      assert name in h.topics ==> h.next !in h.topics[name].subs;
    }
    forall id, name | id in r.subs && !r.subs[id].closed && name in r.subs[id].topics
      ensures name in r.topics && id in r.topics[name].subs
    {
      JoinedMeans(h, now, names, h.next, name);
      if id != h.next { assert name in h.topics && id in h.topics[name].subs; }
    }
  }

  lemma {:induction false} RemovedMeans(ids: seq<nat>, sub: nat)
    ensures forall id :: id in Removed(ids, sub) <==> id in ids && id != sub
    ensures Distinct(ids) ==> Distinct(Removed(ids, sub))
  {
    if ids != [] {
      var n := |ids| - 1;
      var rest := Removed(ids[..n], sub);
      RemovedMeans(ids[..n], sub);
      assert ids == ids[..n] + [ids[n]];
      assert Distinct(ids) ==> ids[n] !in ids[..n];
      assert forall i :: 0 <= i < |rest| ==> rest[i] in rest;
    }
  }

  lemma {:induction false} RemovedTwice(ids: seq<nat>, sub: nat)
    ensures Removed(Removed(ids, sub), sub) == Removed(ids, sub)
  {
    if ids != [] {
      var n := |ids| - 1;
      var rest := Removed(ids[..n], sub);
      RemovedTwice(ids[..n], sub);
      if ids[n] == sub {
        assert Removed(ids, sub) == rest;
      } else {
        assert Removed(ids, sub) == rest + [ids[n]] && (rest + [ids[n]])[..|rest|] == rest;
      }
    }
  }

  /** Publishing sends the event to every open channel on its topic that has room, closes the ones that have none,
      and leaves the other channels as they were; the topic is used now. */
  lemma PublishSends(h: State, now: int, name: string, data: string, id: nat)
    requires Subscribed(h) && h.keep > 0 && |TopicOf(h, name, now).recent| == |TopicOf(h, name, now).seqs| && id in h.subs
    ensures var r, s := Publishes(h, now, name, data), h.subs[id];
      var ev := Event(h.epoch + "-" + Itoa(h.seqNo + 1), data);
      && id in r.subs && name in r.topics && r.topics[name].used == now && r.seqNo == h.seqNo + 1
      && r.subs[id] == (if s.closed || name !in s.topics then s
                        else if |s.queue| < 64 then s.(queue := s.queue + [ev]) else s.(closed := true))
      && (id in r.topics[name].subs <==> !r.subs[id].closed && name in s.topics)
      && r.topics[name].recent != [] && r.topics[name].recent[|r.topics[name].recent| - 1] == ev
  {
    var ids, ev := TopicOf(h, name, now).subs, Event(Id(h.epoch, h.seqNo + 1), data);
    SendingMeans(ids, h.subs, ev);
    TakersMean(ids, h.subs);
    OnTopic(h, now, name, id);
  }

  lemma OnTopic(h: State, now: int, name: string, id: nat)
    requires Subscribed(h) && id in h.subs
    ensures id in TopicOf(h, name, now).subs ==> name in h.subs[id].topics
    ensures !h.subs[id].closed && name in h.subs[id].topics ==> id in TopicOf(h, name, now).subs
  {
  }

  /** Ending a subscriber closes its channel, takes it off every topic, which is used now, and changes no other's. */
  lemma UnsubscribeEnds(h: State, now: int, sub: nat, name: string, id: nat)
    requires Subscribed(h) && sub in h.subs && id in h.subs
    ensures var r := Unsubscribes(h, now, sub);
      && id in r.subs && r.subs[id] == (if id == sub then h.subs[id].(closed := true) else h.subs[id])
      && (name in r.topics <==> name in h.topics)
      && (name in h.topics ==>
        && (id in r.topics[name].subs <==> id in h.topics[name].subs && id != sub)
        && r.topics[name].used == (if name in h.subs[sub].topics then now else h.topics[name].used)
        && r.topics[name].recent == h.topics[name].recent && r.topics[name].seqs == h.topics[name].seqs && r.topics[name].floor == h.topics[name].floor)
  {
    if name in h.topics { RemovedMeans(h.topics[name].subs, sub); }
  }

  /** A page's position makes its topics and marks them used now; what they hold and who listens stays. */
  lemma {:induction false} PositionsMean(h: State, now: int, names: seq<string>, name: string)
    ensures var r := Positions(h, now, names);
      && (name in r.topics <==> name in h.topics || name in names) && r.dropped == h.dropped
      && (name in names ==> r.topics[name] == TopicOf(h, name, now).(used := now))
      && (name in h.topics && name !in names ==> r.topics[name] == h.topics[name])
  {
    if names != [] {
      var n := |names| - 1;
      PositionsMean(h, now, names[..n], name);
      PositionsMean(h, now, names[..n], names[n]);
      assert names == names[..n] + [names[n]];
    }
  }

  lemma UnsubscribeLog(h: State, log: seq<Logged>, now: int, sub: nat, r: State)
    requires KeepsLog(h, log) && sub in h.subs && r == Unsubscribes(h, now, sub)
    ensures KeepsLog(r, log)
  {
    forall name | name in r.topics ensures Keeps(r.topics[name], name, log) { assert Keeps(h.topics[name], name, log); }
    forall name | name !in r.topics ensures Forgotten(r, log, name) { assert Forgotten(h, log, name); }
  }

  lemma StillListed(h: State, now: int, sub: nat, r: State, id: nat, name: string)
    requires Subscribed(h) && sub in h.subs && r == Unsubscribes(h, now, sub)
    requires id in r.subs && !r.subs[id].closed && name in r.subs[id].topics
    ensures name in r.topics && id in r.topics[name].subs
  {
    assert id != sub && !h.subs[id].closed && name in h.subs[id].topics;
    assert name in h.topics && id in h.topics[name].subs;
    RemovedMeans(h.topics[name].subs, sub);
  }

  lemma OnlyListed(h: State, now: int, sub: nat, r: State, name: string)
    requires Subscribed(h) && sub in h.subs && r == Unsubscribes(h, now, sub) && name in r.topics
    ensures Distinct(r.topics[name].subs)
    ensures forall id :: id in r.topics[name].subs ==> id in r.subs && name in r.subs[id].topics
  {
    RemovedMeans(h.topics[name].subs, sub);
  }

  lemma UnsubscribeKeeps(h: State, log: seq<Logged>, now: int, sub: nat, r: State)
    requires KeepsLog(h, log) && Subscribed(h) && sub in h.subs && r == Unsubscribes(h, now, sub)
    ensures KeepsLog(r, log) && Subscribed(r)
  {
    UnsubscribeLog(h, log, now, sub, r);
    forall name | name in r.topics
      ensures Distinct(r.topics[name].subs) && forall id :: id in r.topics[name].subs ==> id in r.subs && name in r.subs[id].topics
    {
      OnlyListed(h, now, sub, r, name);
    }
    forall id, name | id in r.subs && !r.subs[id].closed && name in r.subs[id].topics
      ensures name in r.topics && id in r.topics[name].subs
    {
      StillListed(h, now, sub, r, id, name);
    }
  }

  lemma {:induction false} PositionsKeep(h: State, log: seq<Logged>, now: int, names: seq<string>)
    requires KeepsLog(h, log) && Subscribed(h)
    ensures KeepsLog(Positions(h, now, names), log) && Subscribed(Positions(h, now, names))
    ensures var r := Positions(h, now, names); r.(topics := h.topics) == h
  {
    if names != [] {
      var n := |names| - 1;
      var p := Positions(h, now, names[..n]);
      PositionsKeep(h, log, now, names[..n]);
      TouchedKeeps(p, log, now, names[n]);
    }
  }

  lemma TouchedKeeps(h: State, log: seq<Logged>, now: int, name: string)
    requires KeepsLog(h, log) && Subscribed(h)
    ensures var r := h.(topics := h.topics[name := TopicOf(h, name, now).(used := now)]); KeepsLog(r, log) && Subscribed(r)
  {
    var r := h.(topics := h.topics[name := TopicOf(h, name, now).(used := now)]);
    TopicKeeps(h, log, name, now);
    assert Keeps(r.topics[name], name, log);
    forall other | other in r.topics ensures Keeps(r.topics[other], other, log) {
      if other != name { assert Keeps(h.topics[other], other, log); }
    }
    forall other | other !in r.topics ensures Forgotten(r, log, other) { assert Forgotten(h, log, other); }
    forall id, other | id in r.subs && !r.subs[id].closed && other in r.subs[id].topics
      ensures other in r.topics && id in r.topics[other].subs
    {
      assert other in h.topics && id in h.topics[other].subs;
    }
  }

  /** What is dropped does not depend on the order the topics are swept in. */
  lemma OneDrop(h: State, gone: set<string>, d: nat, e: nat)
    requires DropsTo(h, gone, d) && DropsTo(h, gone, e)
    ensures d == e
  {
  }

  lemma OneMoreForgot(h: State, names: seq<string>, i: nat, last: Option<nat>)
    requires i < |names|
    ensures Forgot(h, names[..i + 1], last) <==> Forgot(h, names[..i], last) || last.None? || last.value < TopicOf(h, names[i], 0).floor
  {
    assert forall j :: 0 <= j < i ==> names[..i + 1][j] == names[..i][j];
    assert names[..i + 1][i] == names[i];
    if Forgot(h, names[..i], last) {
      var j :| 0 <= j < i && (last.None? || last.value < TopicOf(h, names[..i][j], 0).floor);
      assert names[..i + 1][j] == names[..i][j];
    }
  }
}
