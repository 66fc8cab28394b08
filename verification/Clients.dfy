/** The clients of the SSE hub over any run (sse/hub.go): what each was given, against the full log. */
module Clients {
  import opened Text
  import opened Sse

  /** A client's stream: its channel, and what it missed still to be sent before. */
  datatype Stream = Stream(sub: nat, pending: seq<Event>)

  /** A client of some topics: what it got since its page was rendered or last reloaded (at seq
      start), and the ID it will send when it reconnects. */
  datatype Client = Client(names: seq<string>, start: nat, last: string, got: seq<Event>, stream: Option<Stream>)

  datatype System = System(h: State, log: seq<Logged>, clients: map<nat, Client>)

  datatype Action =
    | Publish(now: int, name: string, data: string)
    | Enter(id: nat, now: int, names: seq<string>)
    | Connect(id: nat, now: int)
    | Take(id: nat)
    | Leave(id: nat, now: int)

  /** What the client has waiting: what it missed, then its channel. */
  function Waiting(h: State, c: Client): seq<Event>
    requires c.stream.Some? && c.stream.value.sub in h.subs
  {
    c.stream.value.pending + h.subs[c.stream.value.sub].queue
  }

  ghost predicate Enabled(s: System, a: Action) {
    match a
    case Publish(_, _, _) => true
    case Enter(id, _, names) => id !in s.clients && Distinct(names)
    case Connect(id, _) => id in s.clients && s.clients[id].stream.None?
    case Take(id) => id in s.clients && s.clients[id].stream.Some? && s.clients[id].stream.value.sub in s.h.subs && Waiting(s.h, s.clients[id]) != []
    case Leave(id, _) => id in s.clients && s.clients[id].stream.Some? && s.clients[id].stream.value.sub in s.h.subs
  }

  /** A client told its place is lost reloads, and stands where the hub did. */
  function Connected(h: State, c: Client, st: Start): Client {
    if st.stale then c.(start := h.seqNo, last := st.at, got := [], stream := Some(Stream(st.sub, [])))
    else c.(stream := Some(Stream(st.sub, st.missed)))
  }

  function Took(h: State, c: Client): (State, Client)
    requires c.stream.Some? && c.stream.value.sub in h.subs && Waiting(h, c) != []
  {
    var st := c.stream.value;
    var ev := Waiting(h, c)[0];
    var d := c.(last := ev.id, got := c.got + [ev]);
    if st.pending != [] then (h, d.(stream := Some(st.(pending := st.pending[1..]))))
    else (h.(subs := h.subs[st.sub := h.subs[st.sub].(queue := h.subs[st.sub].queue[1..])]), d)
  }

  ghost function Apply(s: System, a: Action): System
    requires Enabled(s, a) && Inv(s)
  {
    match a
    case Publish(now, name, data) =>
      SweptOk(s.h, s.log, now);
      TopicKeeps(Swept(s.h, now), s.log, name, now);
      System(Publishes(Swept(s.h, now), now, name, data),
             s.log + [Logged(name, Event(Id(s.h.epoch, s.h.seqNo + 1), data))], s.clients)
    case Enter(id, now, names) =>
      var h := Positions(Swept(s.h, now), now, names);
      System(h, s.log, s.clients[id := Client(names, s.h.seqNo, Id(s.h.epoch, s.h.seqNo), [], None)])
    case Connect(id, now) =>
      SweptOk(s.h, s.log, now);
      var h, c := Swept(s.h, now), s.clients[id];
      KeptEven(h, s.log);
      System(Subscribes(h, now, c.names), s.log, s.clients[id := Connected(h, c, StartOf(h, c.last, c.names))])
    case Take(id) =>
      System(Took(s.h, s.clients[id]).0, s.log, s.clients[id := Took(s.h, s.clients[id]).1])
    case Leave(id, now) =>
      System(Unsubscribes(s.h, now, s.clients[id].stream.value.sub), s.log, s.clients[id := s.clients[id].(stream := None)])
  }

  lemma KeptEven(h: State, log: seq<Logged>)
    requires KeepsLog(h, log)
    ensures Even(h)
  {
    forall name | name in h.topics ensures |h.topics[name].recent| == |h.topics[name].seqs| {
      KeptOnes(h.topics[name], name, log);
    }
  }

  lemma SweptOk(h: State, log: seq<Logged>, now: int)
    requires Valid(h, log)
    ensures Valid(Swept(h, now), log) && Swept(h, now).subs == h.subs && Swept(h, now).seqNo == h.seqNo && Swept(h, now).next == h.next
    ensures Swept(h, now).epoch == h.epoch && Even(Swept(h, now))
  {
    SweptKeeps(h, log, now, Swept(h, now));
    SweptSubscribed(h, now, Swept(h, now));
    KeptEven(Swept(h, now), log);
  }

  // --- What every run keeps ---

  /** Where a client stands: at the last event it got, having got all before. */
  ghost predicate Stands(h: State, log: seq<Logged>, c: Client, at: nat) {
    && Distinct(c.names) && c.start <= at <= |log| && c.last == Id(h.epoch, at)
    && Since(log, SetOf(c.names), c.start) == c.got + Since(log, SetOf(c.names), at)
  }

  /** What a client has waiting is what follows, all of it while its channel is open. */
  ghost predicate Follows(h: State, log: seq<Logged>, c: Client, at: nat) {
    c.stream.Some? ==>
      && c.stream.value.sub in h.subs && h.subs[c.stream.value.sub].topics == c.names
      && Waiting(h, c) <= Since(log, SetOf(c.names), at)
      && (!h.subs[c.stream.value.sub].closed ==> Waiting(h, c) == Since(log, SetOf(c.names), at))
  }

  ghost predicate ClientOk(h: State, log: seq<Logged>, c: Client) {
    exists at :: Stands(h, log, c, at) && Follows(h, log, c, at)
  }

  /** No two clients share a channel. */
  ghost predicate Apart(clients: map<nat, Client>) {
    forall i, j :: i in clients && j in clients && i != j && clients[i].stream.Some? && clients[j].stream.Some?
      ==> clients[i].stream.value.sub != clients[j].stream.value.sub
  }

  ghost predicate Inv(s: System) {
    Valid(s.h, s.log) && Apart(s.clients) && forall id :: id in s.clients ==> ClientOk(s.h, s.log, s.clients[id])
  }

  // --- Publishing ---

  lemma StandsAppended(h: State, log: seq<Logged>, e: Logged, c: Client, at: nat, r: State)
    requires Stands(h, log, c, at) && r.epoch == h.epoch
    ensures Stands(r, log + [e], c, at)
  {
    var names := SetOf(c.names);
    SinceAppended(log, e, names, c.start);
    SinceAppended(log, e, names, at);
    var more: seq<Event> := if e.topic in names then [e.ev] else [];
    assert c.got + Since(log, names, at) + more == c.got + (Since(log, names, at) + more);
  }

  /** The channel takes the event, or closes: no gap either way. */
  lemma SentWaiting(pending: seq<Event>, sub: Subscriber, ev: Event, all: seq<Event>)
    requires pending + sub.queue <= all && (!sub.closed ==> pending + sub.queue == all)
    ensures pending + Sent(sub, ev).queue <= all + [ev]
    ensures !Sent(sub, ev).closed ==> pending + Sent(sub, ev).queue == all + [ev]
  {
    assert pending + (sub.queue + [ev]) == pending + sub.queue + [ev];
  }

  /** Exactly the open channels on the event's topic are sent it. */
  lemma SentTopic(h: State, now: int, name: string, sub: nat)
    requires Subscribed(h) && sub in h.subs
    ensures sub in TopicOf(h, name, now).subs ==> name in h.subs[sub].topics
    ensures !h.subs[sub].closed && name in h.subs[sub].topics ==> sub in TopicOf(h, name, now).subs
  {
  }

  lemma SentFollows(h: State, log: seq<Logged>, now: int, e: Logged, subs: map<nat, Subscriber>, r: State, c: Client, at: nat)
    requires Subscribed(h) && at <= |log| && Follows(h, log, c, at)
    requires subs == SentTo(h.subs, TopicOf(h, e.topic, now).subs, e.ev) && r.subs == subs
    ensures Follows(r, log + [e], c, at)
  {
    if c.stream.Some? {
      var names, sub := SetOf(c.names), c.stream.value.sub;
      SinceAppended(log, e, names, at);
      assert e.topic in names <==> e.topic in c.names;
      SentTopic(h, now, e.topic, sub);
      SentWaiting(c.stream.value.pending, h.subs[sub], e.ev, Since(log, names, at));
      assert Waiting(h, c) <= Since(log, names, at);
    }
  }

  lemma PublishedClient(was: State, h: State, log: seq<Logged>, now: int, e: Logged, r: State, c: Client)
    requires ClientOk(was, log, c) && Subscribed(h) && h.subs == was.subs && h.epoch == was.epoch
    requires r.subs == SentTo(h.subs, TopicOf(h, e.topic, now).subs, e.ev) && r.epoch == h.epoch
    ensures ClientOk(r, log + [e], c)
  {
    var at :| Stands(was, log, c, at) && Follows(was, log, c, at);
    StandsAppended(was, log, e, c, at, r);
    SentFollows(h, log, now, e, r.subs, r, c, at);
  }

  lemma PublishedValid(h: State, log: seq<Logged>, now: int, e: Logged, r: State)
    requires Valid(h, log) && e.ev.id == Id(h.epoch, h.seqNo + 1)
    requires |TopicOf(h, e.topic, now).recent| == |TopicOf(h, e.topic, now).seqs| && r == Publishes(h, now, e.topic, e.ev.data)
    ensures Valid(r, log + [e])
  {
    PublishKeeps(h, log, now, e, r);
    PublishSubscribed(h, now, e.topic, e.ev.data, r);
    PublishedIds(h, log, e, r);
  }

  lemma PublishedIds(h: State, log: seq<Logged>, e: Logged, r: State)
    requires IdsOf(h, log) && e.ev.id == Id(h.epoch, h.seqNo + 1) && r.seqNo == h.seqNo + 1 && r.epoch == h.epoch
    ensures IdsOf(r, log + [e])
  {
  }

  lemma PublishOk(s: System, a: Action)
    requires Inv(s) && a.Publish?
    ensures Inv(Apply(s, a))
  {
    var h, r := Swept(s.h, a.now), Apply(s, a);
    var e := Logged(a.name, Event(Id(s.h.epoch, s.h.seqNo + 1), a.data));
    SweptOk(s.h, s.log, a.now);
    TopicKeeps(h, s.log, a.name, a.now);
    PublishedValid(h, s.log, a.now, e, r.h);
    SendingMeans(TopicOf(h, a.name, a.now).subs, h.subs, e.ev);
    forall id | id in r.clients ensures ClientOk(r.h, r.log, r.clients[id]) {
      PublishedClient(s.h, h, s.log, a.now, e, r.h, s.clients[id]);
    }
  }

  // --- Clients ---

  /** Nothing another client does changes what this one stands at and has waiting. */
  lemma Unmoved(h: State, log: seq<Logged>, c: Client, r: State)
    requires ClientOk(h, log, c) && r.epoch == h.epoch
    requires c.stream.Some? ==> c.stream.value.sub in r.subs && (c.stream.value.sub in h.subs ==> r.subs[c.stream.value.sub] == h.subs[c.stream.value.sub])
    ensures ClientOk(r, log, c)
  {
    var at :| Stands(h, log, c, at) && Follows(h, log, c, at);
    assert Stands(r, log, c, at) && Follows(r, log, c, at);
  }

  lemma NothingSince(log: seq<Logged>, names: set<string>)
    ensures Since(log, names, |log|) == []
  {
    SeqsMean(log, names, |log|);
    OneRising(Seqs(log, names, |log|), []);
  }

  lemma EnterOk(s: System, a: Action)
    requires Inv(s) && a.Enter? && Enabled(s, a)
    ensures Inv(Apply(s, a))
  {
    var h, r := Swept(s.h, a.now), Apply(s, a);
    SweptOk(s.h, s.log, a.now);
    PositionsKeep(h, s.log, a.now, a.names);
    NothingSince(s.log, SetOf(a.names));
    forall id | id in r.clients ensures ClientOk(r.h, r.log, r.clients[id]) {
      if id == a.id {
        assert Stands(r.h, r.log, r.clients[id], |s.log|) && Follows(r.h, r.log, r.clients[id], |s.log|);
      } else {
        Unmoved(s.h, s.log, s.clients[id], r.h);
      }
    }
  }

  lemma StreamsExist(s: System, id: nat)
    requires Inv(s) && id in s.clients && s.clients[id].stream.Some?
    ensures s.clients[id].stream.value.sub in s.h.subs && s.clients[id].stream.value.sub < s.h.next
  {
    var at :| Stands(s.h, s.log, s.clients[id], at) && Follows(s.h, s.log, s.clients[id], at);
  }

  lemma LeaveOk(s: System, a: Action)
    requires Inv(s) && a.Leave? && Enabled(s, a)
    ensures Inv(Apply(s, a))
  {
    var r, sub := Apply(s, a), s.clients[a.id].stream.value.sub;
    UnsubscribeKeeps(s.h, s.log, a.now, sub, r.h);
    forall id | id in r.clients ensures ClientOk(r.h, r.log, r.clients[id]) {
      var c := s.clients[id];
      var at :| Stands(s.h, s.log, c, at) && Follows(s.h, s.log, c, at);
      assert Stands(r.h, r.log, r.clients[id], at) && Follows(r.h, r.log, r.clients[id], at);
    }
  }

  /** A client told to reload stands where the hub does, with nothing waiting. */
  lemma ReloadedOk(h: State, log: seq<Logged>, c: Client, r: State)
    requires |log| == h.seqNo && Distinct(c.names) && r.epoch == h.epoch
    requires c.stream.Some? && c.stream.value.pending == [] && c.got == [] && c.start == |log| && c.last == Id(h.epoch, |log|)
    requires c.stream.value.sub in r.subs && r.subs[c.stream.value.sub] == Subscriber([], false, c.names)
    ensures ClientOk(r, log, c)
  {
    NothingSince(log, SetOf(c.names));
    assert Stands(r, log, c, |log|) && Follows(r, log, c, |log|);
  }

  /** A client that reconnects in time is given what it missed. */
  lemma ResumedOk(h: State, log: seq<Logged>, c: Client, at: nat, sub: nat, r: State)
    requires KeepsLog(h, log) && Even(h) && Stands(h, log, c, at) && !Forgot(h, c.names, Some(at))
    requires r.epoch == h.epoch && sub in r.subs && r.subs[sub] == Subscriber([], false, c.names)
    ensures ClientOk(r, log, c.(stream := Some(Stream(sub, Events(Sorting.Sort(Collected(h, c.names, at), MissedLe))))))
  {
    var missed := Events(Sorting.Sort(Collected(h, c.names, at), MissedLe));
    var d := c.(stream := Some(Stream(sub, missed)));
    MissedIsSince(h, c.names, at, log);
    assert missed + [] == missed;
    assert Stands(r, log, d, at) && Follows(r, log, d, at);
  }

  lemma StartGiven(h: State, c: Client, at: nat)
    requires Even(h) && '-' !in h.epoch && at <= h.seqNo && c.last == Id(h.epoch, at)
    ensures var st := StartOf(h, c.last, c.names);
      && st.sub == h.next && st.at == Id(h.epoch, h.seqNo) && (st.stale <==> Forgot(h, c.names, Some(at)))
      && (!st.stale ==> st.missed == Events(Sorting.Sort(Collected(h, c.names, at), MissedLe)))
  {
    ParseOfId(h, h.epoch, at);
    assert |Itoa(at)| > 0;
    assert c.last != "";
  }

  lemma ConnectedOk(h: State, log: seq<Logged>, c: Client, r: State)
    requires Valid(h, log) && Even(h) && ClientOk(h, log, c)
    requires r.epoch == h.epoch && h.next in r.subs && r.subs[h.next] == Subscriber([], false, c.names)
    ensures ClientOk(r, log, Connected(h, c, StartOf(h, c.last, c.names)))
  {
    var at :| Stands(h, log, c, at) && Follows(h, log, c, at);
    var st := StartOf(h, c.last, c.names);
    StartGiven(h, c, at);
    if st.stale { ReloadedOk(h, log, Connected(h, c, st), r); } else { ResumedOk(h, log, c, at, h.next, r); }
  }

  lemma OthersConnected(s: System, h: State, id: nat, r: State)
    requires Inv(s) && id in s.clients && r.epoch == s.h.epoch
    requires forall sub :: sub in s.h.subs ==> sub in r.subs && r.subs[sub] == s.h.subs[sub]
    ensures ClientOk(r, s.log, s.clients[id])
  {
    if s.clients[id].stream.Some? { StreamsExist(s, id); }
    Unmoved(s.h, s.log, s.clients[id], r);
  }

  lemma ConnectValid(h: State, log: seq<Logged>, now: int, names: seq<string>, r: State)
    requires Valid(h, log) && Distinct(names) && r == Subscribes(h, now, names)
    ensures Valid(r, log) && forall sub :: sub in h.subs ==> sub in r.subs && r.subs[sub] == h.subs[sub]
  {
    SubscribeKeeps(h, log, now, names, r);
    SubscribeSubscribed(h, now, names, r);
    assert h.next !in h.subs;
  }

  lemma OwnConnected(s: System, h: State, id: nat, r: State)
    requires Valid(h, s.log) && Even(h) && id in s.clients && s.clients[id].stream.None? && ClientOk(s.h, s.log, s.clients[id])
    requires h.epoch == s.h.epoch && r.epoch == h.epoch
    requires h.next in r.subs && r.subs[h.next] == Subscriber([], false, s.clients[id].names)
    ensures ClientOk(r, s.log, Connected(h, s.clients[id], StartOf(h, s.clients[id].last, s.clients[id].names)))
  {
    Unmoved(s.h, s.log, s.clients[id], h);
    ConnectedOk(h, s.log, s.clients[id], r);
  }

  lemma NamesDistinct(s: System, id: nat)
    requires Inv(s) && id in s.clients
    ensures Distinct(s.clients[id].names)
  {
    assert ClientOk(s.h, s.log, s.clients[id]);
  }

  /** One more client connects, on a channel of its own. */
  lemma ConnectedClients(s: System, id: nat, h: State, r: State, c: Client)
    requires Inv(s) && id in s.clients && r.epoch == s.h.epoch && h.next == s.h.next
    requires forall sub :: sub in s.h.subs ==> sub in r.subs && r.subs[sub] == s.h.subs[sub]
    requires ClientOk(r, s.log, c) && c.stream.Some? && c.stream.value.sub == h.next
    ensures forall other :: other in s.clients ==> ClientOk(r, s.log, s.clients[id := c][other])
    ensures Apart(s.clients[id := c])
  {
    forall other | other in s.clients ensures ClientOk(r, s.log, s.clients[id := c][other]) {
      if other != id { OthersConnected(s, h, other, r); }
    }
    forall other | other in s.clients && s.clients[other].stream.Some? ensures s.clients[other].stream.value.sub < s.h.next { StreamsExist(s, other); }
  }

  lemma ConnectOk(s: System, a: Action)
    requires Inv(s) && a.Connect? && Enabled(s, a)
    ensures Inv(Apply(s, a))
  {
    var h, r, c := Swept(s.h, a.now), Apply(s, a), s.clients[a.id];
    SweptOk(s.h, s.log, a.now);
    NamesDistinct(s, a.id);
    ConnectValid(h, s.log, a.now, c.names, r.h);
    OwnConnected(s, h, a.id, r.h);
    ConnectedClients(s, a.id, h, r.h, r.clients[a.id]);
  }

  /** The first event of a client's topics after where it stands. */
  lemma NextEvent(h: State, log: seq<Logged>, names: set<string>, at: nat) returns (n: nat)
    requires IdsOf(h, log) && at <= |log| && Since(log, names, at) != []
    ensures at < n <= |log| && Since(log, names, at)[0].id == Id(h.epoch, n)
    ensures Since(log, names, n) == Since(log, names, at)[1..]
  {
    var s := Seqs(log, names, at);
    assert at < s[0] <= |log| by {
      SeqsMean(log, names, at);
      assert s[0] in s;
    }
    n := s[0];
    SinceFrom(log, names, at, 1);
  }

  /** Taking the first of what waits leaves the rest waiting. */
  lemma TookWaits(h: State, c: Client)
    requires c.stream.Some? && c.stream.value.sub in h.subs && Waiting(h, c) != []
    ensures var (r, d) := Took(h, c);
      && d.stream.Some? && d.stream.value.sub == c.stream.value.sub && d.stream.value.sub in r.subs && Waiting(r, d) == Waiting(h, c)[1..]
      && r.subs[d.stream.value.sub].closed == h.subs[c.stream.value.sub].closed && r.subs[d.stream.value.sub].topics == h.subs[c.stream.value.sub].topics
      && d.got == c.got + [Waiting(h, c)[0]] && d.last == Waiting(h, c)[0].id && d.names == c.names && d.start == c.start && r.epoch == h.epoch
  {
  }

  lemma MovedOver(from: seq<Event>, got: seq<Event>, all: seq<Event>, rest: seq<Event>)
    requires from == got + all && all != [] && rest == all[1..]
    ensures from == (got + [all[0]]) + rest
  {
  }

  lemma StandsNext(h: State, log: seq<Logged>, c: Client, at: nat, n: nat, d: Client)
    requires Stands(h, log, c, at) && at < n <= |log| && Since(log, SetOf(c.names), at) != []
    requires Since(log, SetOf(c.names), n) == Since(log, SetOf(c.names), at)[1..]
    requires d.names == c.names && d.start == c.start && d.last == Id(h.epoch, n)
    requires d.got == c.got + [Since(log, SetOf(c.names), at)[0]]
    ensures Stands(h, log, d, n)
  {
    MovedOver(Since(log, SetOf(c.names), c.start), c.got, Since(log, SetOf(c.names), at), Since(log, SetOf(c.names), n));
  }

  lemma TookOk(h: State, log: seq<Logged>, c: Client)
    requires IdsOf(h, log) && ClientOk(h, log, c) && c.stream.Some? && c.stream.value.sub in h.subs && Waiting(h, c) != []
    ensures ClientOk(Took(h, c).0, log, Took(h, c).1)
  {
    var at :| Stands(h, log, c, at) && Follows(h, log, c, at);
    var r, d := Took(h, c).0, Took(h, c).1;
    var names, w := SetOf(c.names), Waiting(h, c);
    assert w[0] == Since(log, names, at)[0];
    var n := NextEvent(h, log, names, at);
    TookWaits(h, c);
    StandsNext(h, log, c, at, n, d);
    assert Stands(r, log, d, n) && Follows(r, log, d, n);
  }

  /** What a queue holds is of no matter to who is on which topic. */
  lemma QueuesAside(h: State, r: State)
    requires Subscribed(h) && r.topics == h.topics && r.next == h.next && r.subs.Keys == h.subs.Keys
    requires forall id :: id in h.subs ==> r.subs[id].closed == h.subs[id].closed && r.subs[id].topics == h.subs[id].topics
    ensures Subscribed(r)
  {
  }

  lemma TookValid(h: State, log: seq<Logged>, c: Client)
    requires Valid(h, log) && c.stream.Some? && c.stream.value.sub in h.subs && Waiting(h, c) != []
    ensures Valid(Took(h, c).0, log)
  {
    var r := Took(h, c).0;
    assert r.subs.Keys == h.subs.Keys;
    QueuesAside(h, r);
    forall name | name !in r.topics ensures Forgotten(r, log, name) { assert Forgotten(h, log, name); }
  }

  lemma TakeOk(s: System, a: Action)
    requires Inv(s) && a.Take? && Enabled(s, a)
    ensures Inv(Apply(s, a))
  {
    var r, c := Apply(s, a), s.clients[a.id];
    TookOk(s.h, s.log, c);
    TookValid(s.h, s.log, c);
    forall id | id in s.clients && id != a.id ensures ClientOk(r.h, r.log, r.clients[id]) {
      if s.clients[id].stream.Some? { StreamsExist(s, id); }
      Unmoved(s.h, s.log, s.clients[id], r.h);
    }
  }

  lemma StepKeeps(s: System, a: Action)
    requires Inv(s) && Enabled(s, a)
    ensures Inv(Apply(s, a))
  {
    match a
    case Publish(_, _, _) => PublishOk(s, a);
    case Enter(_, _, _) => EnterOk(s, a);
    case Connect(_, _) => ConnectOk(s, a);
    case Take(_) => TakeOk(s, a);
    case Leave(_, _) => LeaveOk(s, a);
  }

  ghost predicate Reaches(s: System, actions: seq<Action>, last: System)
    requires Inv(s)
    decreases |actions|
  {
    if actions == [] then s == last
    else Enabled(s, actions[0]) && (StepKeeps(s, actions[0]); Reaches(Apply(s, actions[0]), actions[1..], last))
  }
  /** A hub as it starts. */
  function New(epoch: string, keep: nat, idle: int): State {
    State(epoch, keep, idle, 0, map[], 0, 0, map[], 0)
  }

  lemma NewOk(epoch: string, keep: nat, idle: int)
    requires keep > 0 && '-' !in epoch
    ensures Inv(System(New(epoch, keep, idle), [], map[]))
  {
    forall name ensures Forgotten(New(epoch, keep, idle), [], name) { SeqsMean([], {name}, 0); }
  }

  /** What the actions make of a hub as it starts, with no client. */
  ghost predicate Runs(epoch: string, keep: nat, idle: int, actions: seq<Action>, last: System)
    requires keep > 0 && '-' !in epoch
  {
    NewOk(epoch, keep, idle);
    Reaches(System(New(epoch, keep, idle), [], map[]), actions, last)
  }

  lemma {:induction false} RunKeeps(s: System, actions: seq<Action>, last: System)
    requires Inv(s) && Reaches(s, actions, last)
    ensures Inv(last)
    decreases |actions|
  {
    if actions != [] {
      StepKeeps(s, actions[0]);
      RunKeeps(Apply(s, actions[0]), actions[1..], last);
    }
  }

  /** At every moment of every run, what a client got and what it has waiting are the beginning of its
      topics' log after where it started, in order, nothing missing and nothing twice; all of it while
      its channel is open. Evictions, sweeps, topics made again and drops included. */
  lemma NoGapNoDuplicate(epoch: string, keep: nat, idle: int, actions: seq<Action>, last: System, id: nat)
    requires keep > 0 && '-' !in epoch && Runs(epoch, keep, idle, actions, last) && id in last.clients
    ensures var c := last.clients[id];
      var all := Since(last.log, SetOf(c.names), c.start);
      && c.got <= all
      && (c.stream.Some? ==> c.stream.value.sub in last.h.subs && c.got + Waiting(last.h, c) <= all)
      && (c.stream.Some? && !last.h.subs[c.stream.value.sub].closed ==> c.got + Waiting(last.h, c) == all)
  {
    NewOk(epoch, keep, idle);
    RunKeeps(System(New(epoch, keep, idle), [], map[]), actions, last);
    var c := last.clients[id];
    assert ClientOk(last.h, last.log, c);
    var at :| Stands(last.h, last.log, c, at) && Follows(last.h, last.log, c, at);
    assert c.got <= c.got + Since(last.log, SetOf(c.names), at);
    if c.stream.Some? { PrefixAfter(c.got, Waiting(last.h, c), Since(last.log, SetOf(c.names), at)); }
  }

  lemma PrefixAfter(a: seq<Event>, b: seq<Event>, all: seq<Event>)
    requires b <= all
    ensures a + b <= a + all
  {
  }

  // --- When a client told its place is lost did lose something ---

  predicate NotKept(h: State, name: string, n: nat) { name !in h.topics || n !in h.topics[name].seqs }

  predicate Lost(h: State, log: seq<Logged>, names: seq<string>, last: nat, n: nat) {
    last < n <= |log| && log[n - 1].topic in names && NotKept(h, log[n - 1].topic, n)
  }

  /** An event of its topics that the client has not got is no longer kept. */
  ghost predicate LostOne(h: State, log: seq<Logged>, names: seq<string>, last: nat) { exists n: nat :: Lost(h, log, names, last, n) }

  lemma FloorNotKept(h: State, log: seq<Logged>, name: string, n: nat)
    requires KeepsLog(h, log) && n <= TopicOf(h, name, 0).floor
    ensures NotKept(h, name, n)
  {
    if name in h.topics { KeptMember(h.topics[name], name, log, n); }
  }

  /** The topic had no event of its own after last and up to floor. */
  ghost predicate NoneWithin(log: seq<Logged>, name: string, last: nat, floor: nat) {
    forall n: nat :: last < n <= floor ==> !EventOf(log, name, n)
  }

  predicate EventOf(log: seq<Logged>, name: string, n: nat) { 0 < n <= |log| && log[n - 1].topic == name }

  /** What a topic forgot is what it had up to its floor, found or made. */
  lemma LostWithin(h: State, log: seq<Logged>, names: seq<string>, last: nat)
    requires KeepsLog(h, log)
    ensures LostOne(h, log, names, last) <==> exists i :: 0 <= i < |names| && !NoneWithin(log, names[i], last, TopicOf(h, names[i], 0).floor)
  {
    if LostOne(h, log, names, last) {
      var n: nat :| Lost(h, log, names, last, n);
      var i :| 0 <= i < |names| && names[i] == log[n - 1].topic;
      TopicKeeps(h, log, names[i], 0);
      KeptMember(TopicOf(h, names[i], 0), names[i], log, n);
      assert EventOf(log, names[i], n);
      assert !NoneWithin(log, names[i], last, TopicOf(h, names[i], 0).floor);
    }
    if exists i :: 0 <= i < |names| && !NoneWithin(log, names[i], last, TopicOf(h, names[i], 0).floor) {
      var i :| 0 <= i < |names| && !NoneWithin(log, names[i], last, TopicOf(h, names[i], 0).floor);
      var n: nat :| last < n <= TopicOf(h, names[i], 0).floor && EventOf(log, names[i], n);
      FloorNotKept(h, log, names[i], n);
      assert Lost(h, log, names, last, n);
    }
  }

  lemma WithinForgets(h: State, log: seq<Logged>, names: seq<string>, last: nat, i: nat)
    requires i < |names| && !NoneWithin(log, names[i], last, TopicOf(h, names[i], 0).floor)
    ensures Forgot(h, names, Some(last))
  {
  }

  /** A returning client is told its place is lost for nothing if and only if a topic of its own has forgotten
      its place, and none of them had an event of its own between that place and its floor: the floors passed
      it with what other topics dropped. Otherwise it is told so exactly when it lost an event. */
  lemma StaleExactlyWhen(h: State, log: seq<Logged>, names: seq<string>, lastID: string, last: nat)
    requires KeepsLog(h, log) && Even(h) && lastID != "" && Parse(h, lastID) == Some(last)
    ensures LostOne(h, log, names, last) ==> StartOf(h, lastID, names).stale
    ensures StartOf(h, lastID, names).stale && !LostOne(h, log, names, last)
       <==> Forgot(h, names, Some(last)) && forall i :: 0 <= i < |names| ==> NoneWithin(log, names[i], last, TopicOf(h, names[i], 0).floor)
  {
    LostWithin(h, log, names, last);
    Told(h, names, lastID, last);
    if LostOne(h, log, names, last) {
      var i :| 0 <= i < |names| && !NoneWithin(log, names[i], last, TopicOf(h, names[i], 0).floor);
      WithinForgets(h, log, names, last, i);
    }
  }

  /** The floor of the topic, found or made, is an event of its own. */
  predicate OwnFloor(h: State, log: seq<Logged>, name: string) {
    0 < TopicOf(h, name, 0).floor <= |log| && log[TopicOf(h, name, 0).floor - 1].topic == name
  }

  lemma OwnIsWithin(h: State, log: seq<Logged>, name: string, last: nat)
    requires last < TopicOf(h, name, 0).floor && OwnFloor(h, log, name)
    ensures !NoneWithin(log, name, last, TopicOf(h, name, 0).floor)
  {
    assert EventOf(log, name, TopicOf(h, name, 0).floor);
  }

  /** So a client of topics that forgot its place for events of their own is told so only when it lost one. */
  lemma StaleIsLost(h: State, log: seq<Logged>, names: seq<string>, lastID: string, last: nat)
    requires KeepsLog(h, log) && Even(h) && lastID != "" && Parse(h, lastID) == Some(last)
    requires forall i :: 0 <= i < |names| && last < TopicOf(h, names[i], 0).floor ==> OwnFloor(h, log, names[i])
    ensures StartOf(h, lastID, names).stale <==> LostOne(h, log, names, last)
  {
    StaleExactlyWhen(h, log, names, lastID, last);
    Told(h, names, lastID, last);
    if Forgot(h, names, Some(last)) {
      var i :| 0 <= i < |names| && last < TopicOf(h, names[i], 0).floor;
      OwnIsWithin(h, log, names[i], last);
    }
  }

  // --- How far a client may lag ---

  /** A topic that forgot any event of its own, but for what sweeps dropped, keeps keep of them, the one before
      those forgotten last. */
  predicate FullOrKnows(h: State, log: seq<Logged>, name: string)
    requires name in h.topics
  {
    h.topics[name].floor <= h.dropped || (|h.topics[name].seqs| == h.keep && EventOf(log, name, h.topics[name].floor))
  }

  ghost predicate Ample(h: State, log: seq<Logged>) {
    forall name :: name in h.topics ==> FullOrKnows(h, log, name) && |h.topics[name].seqs| <= h.keep
  }

  lemma SweptAmple(h: State, log: seq<Logged>, now: int)
    requires Ample(h, log)
    ensures Ample(Swept(h, now), log) && Swept(h, now).keep == h.keep
  {
    forall name | name in Swept(h, now).topics ensures FullOrKnows(Swept(h, now), log, name) {
      assert FullOrKnows(h, log, name);
      DroppedMeans(h, now);
    }
  }

  lemma EvictedAmple(t: Topic, name: string, log: seq<Logged>, keep: nat, dropped: nat)
    requires keep > 0 && Keeps(t, name, log) && |t.recent| == |t.seqs| <= keep
    requires t.floor <= dropped || (|t.seqs| == keep && EventOf(log, name, t.floor))
    ensures var e := Evicted(t, keep); |e.seqs| < keep && (e.floor <= dropped || (|e.seqs| + 1 == keep && EventOf(log, name, e.floor)))
  {
    EvictedCounts(t, keep);
    if |t.seqs| >= keep { KeptMember(t, name, log, t.seqs[0]); }
  }

  lemma PublishedAmple(h: State, log: seq<Logged>, now: int, e: Logged, r: State)
    requires KeepsLog(h, log) && Ample(h, log) && |TopicOf(h, e.topic, now).recent| == |TopicOf(h, e.topic, now).seqs|
    requires r == Publishes(h, now, e.topic, e.ev.data)
    ensures Ample(r, log + [e])
  {
    TopicKeeps(h, log, e.topic, now);
    if e.topic in h.topics { assert FullOrKnows(h, log, e.topic); }
    EvictedAmple(TopicOf(h, e.topic, now), e.topic, log, h.keep, h.dropped);
    forall name | name in r.topics ensures FullOrKnows(r, log + [e], name) && |r.topics[name].seqs| <= r.keep {
      if name != e.topic { assert FullOrKnows(h, log, name); }
    }
  }

  /** Topics found or made, what they hold as it was. */
  lemma MadeAmple(h: State, log: seq<Logged>, now: int, r: State)
    requires Ample(h, log) && r.keep == h.keep && r.dropped == h.dropped
    requires forall name :: name in r.topics ==> r.topics[name].floor == TopicOf(h, name, now).floor && r.topics[name].seqs == TopicOf(h, name, now).seqs
    ensures Ample(r, log)
  {
    forall name | name in r.topics ensures FullOrKnows(r, log, name) && |r.topics[name].seqs| <= r.keep {
      if name in h.topics { assert FullOrKnows(h, log, name); }
    }
  }

  lemma StepAmple(s: System, a: Action)
    requires Inv(s) && Ample(s.h, s.log) && Enabled(s, a)
    ensures Ample(Apply(s, a).h, Apply(s, a).log) && Apply(s, a).h.keep == s.h.keep
  {
    match a
    case Publish(now, name, data) =>
      SweptOk(s.h, s.log, now);
      SweptAmple(s.h, s.log, now);
      TopicKeeps(Swept(s.h, now), s.log, name, now);
      PublishedAmple(Swept(s.h, now), s.log, now, Logged(name, Event(Id(s.h.epoch, s.h.seqNo + 1), data)), Apply(s, a).h);
    case Enter(_, now, names) =>
      var h := Swept(s.h, now);
      SweptOk(s.h, s.log, now);
      SweptAmple(s.h, s.log, now);
      PositionsKeep(h, s.log, now, names);
      forall name ensures name in Positions(h, now, names).topics ==>
        Positions(h, now, names).topics[name].floor == TopicOf(h, name, now).floor && Positions(h, now, names).topics[name].seqs == TopicOf(h, name, now).seqs
      {
        PositionsMean(h, now, names, name);
      }
      MadeAmple(h, s.log, now, Positions(h, now, names));
    case Connect(id, now) =>
      var h := Swept(s.h, now);
      SweptAmple(s.h, s.log, now);
      forall name ensures name in Joined(h, now, s.clients[id].names, h.next) ==>
        Joined(h, now, s.clients[id].names, h.next)[name].floor == TopicOf(h, name, now).floor && Joined(h, now, s.clients[id].names, h.next)[name].seqs == TopicOf(h, name, now).seqs
      {
        JoinedKnows(h, now, s.clients[id].names, h.next, name);
      }
      MadeAmple(h, s.log, now, Subscribes(h, now, s.clients[id].names));
    case Take(_) => MadeAmple(s.h, s.log, 0, Apply(s, a).h);
    case Leave(_, now) => MadeAmple(s.h, s.log, now, Apply(s, a).h);
  }

  lemma {:induction false} RunAmple(s: System, actions: seq<Action>, last: System)
    requires Inv(s) && Ample(s.h, s.log) && Reaches(s, actions, last)
    ensures Inv(last) && Ample(last.h, last.log) && last.h.keep == s.h.keep
    decreases |actions|
  {
    if actions != [] {
      StepKeeps(s, actions[0]);
      StepAmple(s, actions[0]);
      RunAmple(Apply(s, actions[0]), actions[1..], last);
    }
  }

  /** Over every run: a live topic keeps keep events, or forgot none but what sweeps dropped. */
  lemma TopicsKeepEnough(epoch: string, keep: nat, idle: int, actions: seq<Action>, s: System, name: string)
    requires keep > 0 && '-' !in epoch && Runs(epoch, keep, idle, actions, s) && name in s.h.topics
    ensures |s.h.topics[name].seqs| == keep || (|s.h.topics[name].seqs| < keep && s.h.topics[name].floor <= s.h.dropped)
  {
    NewOk(epoch, keep, idle);
    RunAmple(System(New(epoch, keep, idle), [], map[]), actions, s);
    assert FullOrKnows(s.h, s.log, name);
  }

  /** The topic had at most keep events after last. */
  ghost predicate AtMost(log: seq<Logged>, name: string, last: nat, keep: nat) { |Seqs(log, {name}, last)| <= keep }

  lemma MoreAfter(log: seq<Logged>, name: string, last: nat, floor: nat)
    requires last < floor && EventOf(log, name, floor)
    ensures |Seqs(log, {name}, last)| > |Seqs(log, {name}, floor)|
  {
    var s := Seqs(log, {name}, last);
    SeqsMean(log, {name}, last);
    assert floor in s;
    var i :| 0 <= i < |s| && s[i] == floor;
    SeqsFrom(log, {name}, last, i + 1);
  }

  lemma InTime(h: State, log: seq<Logged>, name: string, last: nat)
    requires KeepsLog(h, log) && Ample(h, log) && h.dropped <= last && AtMost(log, name, last, h.keep)
    ensures TopicOf(h, name, 0).floor <= last
  {
    if name in h.topics && h.topics[name].floor > last {
      assert FullOrKnows(h, log, name) && Keeps(h.topics[name], name, log);
      MoreAfter(log, name, last, h.topics[name].floor);
    }
  }

  /** Over every run: a client that comes back when none of its topics had more than keep events since its last,
      and no topic with an event since was swept, is not told to reload: it is given all it missed, in order. */
  lemma InTimeIsServed(epoch: string, keep: nat, idle: int, actions: seq<Action>, s: System, id: nat, now: int, last: nat)
    requires keep > 0 && '-' !in epoch && Runs(epoch, keep, idle, actions, s) && id in s.clients
    requires Parse(Swept(s.h, now), s.clients[id].last) == Some(last) && Swept(s.h, now).dropped <= last
    requires forall i :: 0 <= i < |s.clients[id].names| ==> AtMost(s.log, s.clients[id].names[i], last, keep)
    ensures Even(Swept(s.h, now))
    ensures var st := StartOf(Swept(s.h, now), s.clients[id].last, s.clients[id].names);
      !st.stale && st.missed == Since(s.log, SetOf(s.clients[id].names), last)
  {
    NewOk(epoch, keep, idle);
    RunAmple(System(New(epoch, keep, idle), [], map[]), actions, s);
    var h, names := Swept(s.h, now), s.clients[id].names;
    NamesDistinct(s, id);
    SweptOk(s.h, s.log, now);
    SweptAmple(s.h, s.log, now);
    forall i | 0 <= i < |names| ensures TopicOf(h, names[i], 0).floor <= last { InTime(h, s.log, names[i], last); }
    assert !Forgot(h, names, Some(last));
    MissedIsSince(h, names, last, s.log);
  }

  const LATE := [Enter(7, 0, ["b"]), Action.Publish(0, "a", "")]

  const FRESH := System(New("e", 1, 0), [], map[])
  const WAITING := Client(["b"], 0, Id("e", 0), [], None)
  const ENTERED := State("e", 1, 0, 0, map["b" := Topic([], [], [], 0, 0)], 0, 0, map[], 0)
  const PUBLISHED := State("e", 1, 0, 1,
    map["b" := Topic([], [], [], 0, 0), "a" := Topic([], [Event(Id("e", 1), "")], [1], 0, 0)], 0, 0, map[], 0)
  const ONE_EVENT := [Logged("a", Event(Id("e", 1), ""))]

  lemma Enters()
    requires Inv(FRESH)
    ensures Enabled(FRESH, LATE[0]) && Apply(FRESH, LATE[0]) == System(ENTERED, [], map[7 := WAITING])
  {
    var h := New("e", 1, 0);
    var names := ["b"];
    assert names[..0] == [];
    assert Positions(h, 0, names[..0]) == h;
    assert Positions(h, 0, names) == ENTERED;
  }

  lemma IsPublished()
    ensures Even(ENTERED) && Publishes(ENTERED, 0, "a", "") == PUBLISHED
  {
    var t := TopicOf(ENTERED, "a", 0);
    assert t == Topic([], [], [], 0, 0) && Evicted(t, 1) == t;
    var ev := Event(Id("e", 1), "");
    assert Sending([], ENTERED.subs, ev) == ([], ENTERED.subs);
    assert [] + [ev] == [ev] && [] + [1] == [1];
  }

  lemma PublishesOne()
    requires Inv(System(ENTERED, [], map[7 := WAITING]))
    ensures Apply(System(ENTERED, [], map[7 := WAITING]), LATE[1]) == System(PUBLISHED, ONE_EVENT, map[7 := WAITING])
  {
    IsPublished();
    assert Swept(ENTERED, 0) == ENTERED;
  }

  lemma RunsLate()
    ensures Runs("e", 1, 0, LATE, System(PUBLISHED, ONE_EVENT, map[7 := WAITING]))
  {
    NewOk("e", 1, 0);
    Enters();
    StepKeeps(FRESH, LATE[0]);
    PublishesOne();
    StepKeeps(System(ENTERED, [], map[7 := WAITING]), LATE[1]);
    assert LATE[1..] == [LATE[1]] && LATE[1..][1..] == [];
  }

  lemma SweepsBoth()
    ensures Swept(PUBLISHED, MINUTE) == PUBLISHED.(swept := MINUTE, dropped := 1, topics := map[])
  {
    var gone := Gone(PUBLISHED, MINUTE);
    assert gone == {"a", "b"};
    assert DropsTo(PUBLISHED, gone, Dropped(PUBLISHED, gone));
    assert Top(PUBLISHED.topics["a"]) == 1 && Top(PUBLISHED.topics["b"]) == 0;
    assert PUBLISHED.topics - gone == map[];
  }

  lemma ToldStale(h: State)
    requires h == PUBLISHED.(swept := MINUTE, dropped := 1, topics := map[])
    ensures Even(h) && StartOf(h, WAITING.last, WAITING.names).stale
  {
    ParseOfId(h, "e", 0);
    assert Id("e", 0) != "";
    assert Forgot(h, ["b"], Some(0)) by { assert TopicOf(h, ["b"][0], 0).floor == 1; }
  }

  /** A page shows the topic b; an event of another topic is published; a minute later the sweep drops
      both topics, and the client of b, which missed nothing, is told its place is lost. */
  lemma StaleForNothing()
    ensures Runs("e", 1, 0, LATE, System(PUBLISHED, ONE_EVENT, map[7 := WAITING]))
    ensures var h := Swept(PUBLISHED, MINUTE);
      Even(h) && StartOf(h, WAITING.last, WAITING.names).stale && Since(ONE_EVENT, SetOf(WAITING.names), WAITING.start) == []
  {
    RunsLate();
    SweepsBoth();
    ToldStale(Swept(PUBLISHED, MINUTE));
    SeqsMean(ONE_EVENT, SetOf(["b"]), 0);
    OneRising(Seqs(ONE_EVENT, SetOf(["b"]), 0), []);
  }
}
