/** sse/hub.go: the hub as the program runs it, step by step on its fields. */
module SseHub {
  import opened Text
  import opened Sorting
  import opened Sse

  /** The sweep half done: names to look at, gone dropped. */
  ghost predicate Sweeping(h: State, now: int, names: set<string>, topics: map<string, Topic>, dropped: nat) {
    && names <= h.topics.Keys
    && topics == h.topics - (Gone(h, now) - names)
    && DropsTo(h, Gone(h, now) - names, dropped)
  }

  lemma SweepOne(h: State, now: int, names: set<string>, name: string, topics: map<string, Topic>, dropped: nat)
    requires Sweeping(h, now, names, topics, dropped) && name in names
    ensures name in topics && topics[name] == h.topics[name]
    ensures name in Gone(h, now) ==> Sweeping(h, now, names - {name}, topics - {name}, Max(dropped, Top(h.topics[name])))
    ensures name !in Gone(h, now) ==> Sweeping(h, now, names - {name}, topics, dropped)
  {
    var gone := Gone(h, now);
    if name in gone {
      assert gone - (names - {name}) == (gone - names) + {name};
      assert h.topics - ((gone - names) + {name}) == topics - {name};
    } else {
      assert gone - (names - {name}) == gone - names;
    }
  }

  /** One more topic joined: the same topic as before any was, the channel added. */
  lemma JoinOne(h: State, now: int, names: seq<string>, i: nat, sub: nat, topics: map<string, Topic>, t: Topic)
    requires i < |names| && topics == Joined(h, now, names[..i], sub)
    requires t == TopicOf(h.(topics := topics), names[i], now)
    ensures topics[names[i] := t.(subs := t.subs + [sub])] == Joined(h, now, names[..i + 1], sub)
    ensures var u := TopicOf(h, names[i], 0); t.floor == u.floor && t.seqs == u.seqs && t.recent == u.recent
  {
    assert names[..i + 1][..i] == names[..i];
    JoinedKnows(h, now, names[..i], sub, names[i]);
  }

  lemma CollectOne(h: State, names: seq<string>, i: nat, last: nat)
    requires Even(h) && i < |names|
    ensures var t := TopicOf(h, names[i], 0);
      Collected(h, names[..i + 1], last) == Collected(h, names[..i], last) + After(t.seqs, t.recent, last)
  {
    assert names[..i + 1][..i] == names[..i];
  }

  /** The topics joined so far: whether one forgot the client's place, else what they hold after it. */
  ghost predicate Joining(h: State, now: int, lastID: string, names: seq<string>, sub: nat, topics: map<string, Topic>, stale: bool, all: seq<Missed>)
    requires Even(h)
  {
    var last := Parse(h, lastID);
    && topics == Joined(h, now, names, sub)
    && (stale <==> lastID != "" && Forgot(h, names, last))
    && (!stale && lastID != "" && last.Some? ==> all == Collected(h, names, last.value))
    && (lastID == "" || last.None? ==> all == [])
  }

  lemma JoinsOne(h: State, now: int, lastID: string, names: seq<string>, i: nat, sub: nat, topics: map<string, Topic>, stale: bool, all: seq<Missed>, t: Topic)
    requires Even(h) && i < |names| && Joining(h, now, lastID, names[..i], sub, topics, stale, all)
    requires t == TopicOf(h.(topics := topics), names[i], now)
    ensures |t.recent| == |t.seqs|
    ensures var last := Parse(h, lastID);
      var joined := topics[names[i] := t.(subs := t.subs + [sub])];
      if lastID == "" then Joining(h, now, lastID, names[..i + 1], sub, joined, stale, all)
      else if last.None? || last.value < t.floor then Joining(h, now, lastID, names[..i + 1], sub, joined, true, all)
      else Joining(h, now, lastID, names[..i + 1], sub, joined, stale, all + After(t.seqs, t.recent, last.value))
  {
    var last := Parse(h, lastID);
    JoinOne(h, now, names, i, sub, topics, t);
    OneMoreForgot(h, names, i, last);
    if last.Some? { CollectOne(h, names, i, last.value); }
  }

  /** The topics once a subscriber left some of them. */
  function Left(h: State, now: int, sub: nat, names: seq<string>): map<string, Topic> {
    map name | name in h.topics ::
      if name in names then h.topics[name].(subs := Removed(h.topics[name].subs, sub), used := now) else h.topics[name]
  }

  /** It leaves one more, or one it left already. */
  lemma LeftOne(h: State, now: int, sub: nat, names: seq<string>, name: string)
    ensures var topics := Left(h, now, sub, names);
      Left(h, now, sub, names + [name]) ==
        if name in topics then topics[name := topics[name].(subs := Removed(topics[name].subs, sub), used := now)] else topics
  {
    if name in h.topics { RemovedTwice(h.topics[name].subs, sub); }
  }

  class Hub {
    const epoch: string
    const keep: nat
    const idle: int
    var seqNo: nat
    var topics: map<string, Topic>
    var swept: int
    var dropped: nat
    var subs: map<nat, Subscriber>
    var next: nat

    constructor (epoch: string, keep: nat, idle: int)
      ensures S() == State(epoch, keep, idle, 0, map[], 0, 0, map[], 0)
    {
      this.epoch, this.keep, this.idle := epoch, keep, idle;
      seqNo, topics, swept, dropped, subs, next := 0, map[], 0, 0, map[], 0;
    }

    function S(): State
      reads this
    {
      State(epoch, keep, idle, seqNo, topics, swept, dropped, subs, next)
    }

    /** The new state is Swept's, in whatever order the topics are taken. */
    method Sweep(now: int)
      requires Even(S())
      modifies this
      ensures S() == Swept(old(S()), now) && Even(S())
    {
      if now - swept < MINUTE {
        return;
      }
      swept := now;
      ghost var h := old(S());
      var names := topics.Keys;
      assert Gone(h, now) - names == {} && h.topics - {} == h.topics;
      while names != {}
        invariant Sweeping(h, now, names, topics, dropped)
        invariant S() == h.(swept := now, topics := topics, dropped := dropped)
        decreases names
      {
        var name :| name in names;
        SweepOne(h, now, names, name, topics, dropped);
        var t := topics[name];
        if t.subs == [] && now - t.used >= idle {
          dropped := Max(dropped, t.floor);
          if t.seqs != [] {
            dropped := Max(dropped, t.seqs[|t.seqs| - 1]);
          }
          topics := topics - {name};
        }
        names := names - {name};
      }
      assert Gone(h, now) - {} == Gone(h, now);
      OneDrop(h, Gone(h, now), dropped, Dropped(h, Gone(h, now)));
    }

    /** The topic, made when there is none. */
    method TopicNamed(name: string, now: int) returns (t: Topic)
      modifies this`topics
      ensures t == TopicOf(old(S()), name, now) && topics == old(topics)[name := t]
    {
      if name in topics {
        t := topics[name];
        assert topics[name := t] == topics;
      } else {
        t := Topic([], [], [], dropped, now);
        topics := topics[name := t];
      }
    }

    /** Makes room in a topic for one event. */
    method Evict(found: Topic) returns (t: Topic)
      requires keep > 0 && |found.recent| == |found.seqs|
      ensures t == Evicted(found, keep)
    {
      t := found;
      while |t.recent| >= keep
        invariant |t.recent| == |t.seqs| && Evicted(t, keep) == Evicted(found, keep)
      {
        t := t.(floor := t.seqs[0], recent := t.recent[1..], seqs := t.seqs[1..]);
      }
    }

    /** Sends an event to the open channels among ids; one too full to take it closes. */
    method Send(ids: seq<nat>, ev: Event) returns (kept: seq<nat>)
      modifies this`subs
      ensures (kept, subs) == Sending(ids, old(subs), ev)
    {
      kept := [];
      for i := 0 to |ids|
        invariant (kept, subs) == Sending(ids[..i], old(subs), ev)
      {
        var id := ids[i];
        assert ids[..i + 1][..i] == ids[..i];
        if id !in subs || subs[id].closed {
          assert id in subs ==> subs[id := Sent(subs[id], ev)] == subs;
          continue;
        }
        if |subs[id].queue| < BUFFER {
          subs := subs[id := subs[id].(queue := subs[id].queue + [ev])];
          kept := kept + [id];
        } else {
          subs := subs[id := subs[id].(closed := true)];
        }
      }
      assert ids[..|ids|] == ids;
    }

    /** The new state is Publishes' of the swept one: the event kept, each subscriber sent it or closed. */
    method Publish(now: int, name: string, data: string)
      requires Even(S()) && keep > 0
      modifies this
      ensures Even(Swept(old(S()), now))
      ensures S() == Publishes(Swept(old(S()), now), now, name, data)
    {
      Sweep(now);
      var t := TopicNamed(name, now);
      seqNo := seqNo + 1;
      var ev := Event(Id(epoch, seqNo), data);
      t := Evict(t);
      t := t.(recent := t.recent + [ev], seqs := t.seqs + [seqNo], used := now);
      var kept := Send(t.subs, ev);
      topics := topics[name := t.(subs := kept)];
    }

    /** The events after last of those a topic keeps. */
    method Collect(t: Topic, last: nat) returns (missed: seq<Missed>)
      requires |t.recent| == |t.seqs|
      ensures missed == After(t.seqs, t.recent, last)
    {
      missed := [];
      for i := 0 to |t.seqs|
        invariant missed == After(t.seqs[..i], t.recent[..i], last)
      {
        assert t.seqs[..i + 1][..i] == t.seqs[..i] && t.recent[..i + 1][..i] == t.recent[..i];
        if t.seqs[i] > last {
          missed := missed + [Missed(t.seqs[i], t.recent[i])];
        }
      }
      assert t.seqs[..|t.seqs|] == t.seqs && t.recent[..|t.seqs|] == t.recent;
    }

    /** Starts a subscriber of some topics, on one channel. */
    method Subscribe(now: int, lastID: string, names: seq<string>) returns (st: Start)
      requires Even(S())
      modifies this
      ensures Even(Swept(old(S()), now))
      ensures st == StartOf(Swept(old(S()), now), lastID, names)
      ensures S() == Subscribes(Swept(old(S()), now), now, names)
    {
      Sweep(now);
      ghost var h := S();
      var sub := next;
      next, subs := next + 1, subs[next := Subscriber([], false, names)];
      var last := Parse(S(), lastID);
      assert last == Parse(h, lastID);
      var all: seq<Missed> := [];
      var stale := false;
      for i := 0 to |names|
        invariant Joining(h, now, lastID, names[..i], sub, topics, stale, all)
        invariant S() == Subscribes(h, now, names).(topics := topics)
      {
        ghost var before := topics;
        var t := TopicNamed(names[i], now);
        JoinsOne(h, now, lastID, names, i, sub, before, stale, all, t);
        topics := topics[names[i] := t.(subs := t.subs + [sub])];
        assert topics == before[names[i] := t.(subs := t.subs + [sub])];
        if lastID == "" {
          continue;
        }
        if last.None? || last.value < t.floor {
          stale := true;
          continue;
        }
        var missed := Collect(t, last.value);
        all := all + missed;
      }
      assert names[..|names|] == names;
      st := Start(sub, [], stale, Id(epoch, seqNo));
      if !stale {
        st := st.(missed := Events(Sort(all, MissedLe)));
      }
    }

    /** The new state is Unsubscribes': sub on no topic, its channel closed, a second call changing nothing. */
    method Unsubscribe(now: int, sub: nat)
      requires sub in subs
      modifies this
      ensures S() == Unsubscribes(old(S()), now, sub)
    {
      ghost var h := S();
      var names := subs[sub].topics;
      assert Left(h, now, sub, []) == topics;
      for i := 0 to |names|
        invariant S() == h.(topics := topics) && topics == Left(h, now, sub, names[..i])
      {
        var name := names[i];
        LeftOne(h, now, sub, names[..i], name);
        assert names[..i + 1] == names[..i] + [name];
        if name in topics {
          topics := topics[name := topics[name].(subs := Removed(topics[name].subs, sub), used := now)];
        }
      }
      assert names[..|names|] == names;
      subs := subs[sub := subs[sub].(closed := true)];
    }

    /** at stands for the seq given last; every topic named exists after, used at now. */
    method Position(now: int, names: seq<string>) returns (at: string)
      requires Even(S())
      modifies this
      ensures S() == Positions(Swept(old(S()), now), now, names) && at == Id(epoch, seqNo)
    {
      Sweep(now);
      ghost var h := S();
      for i := 0 to |names|
        invariant S() == Positions(h, now, names[..i])
      {
        assert names[..i + 1][..i] == names[..i];
        var t := TopicNamed(names[i], now);
        topics := topics[names[i] := t.(used := now)];
      }
      assert names[..|names|] == names;
      at := Id(epoch, seqNo);
    }
  }
}
