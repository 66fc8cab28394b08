/** Handing directives to a machine (gateway/conn.go, gateway/gateway.go, gateway/llm.go): the plan a
    hello makes, and the race of deliveries, connections and disconnections around one machine. */
module Directives {

  datatype Kind = Coding | Llm

  datatype Status = Reserved | Running | Over

  // --- The plan ---

  /** A directive the database holds; sent is the connection it was sent on, "" when it was not. */
  datatype Directive = Directive(id: string, kind: Kind, status: Status, sent: string)

  datatype Plan = Plan(attach: seq<Directive>, send: seq<Directive>, lost: seq<Directive>, cancel: seq<string>, ack: seq<string>)

  datatype Fate = Carried | SentNow | Lost | Left

  /** What becomes of an open directive at a hello: what the machine lists is carried on; what was
      never sent is sent now, unless it is a call to the model; what an earlier connection sent is lost. */
  ghost predicate Becomes(d: Directive, listed: set<string>, connID: string, fate: Fate) {
    match fate
    case Carried => d.status == Running && d.id in listed
    case SentNow => d.status == Running && d.id !in listed && d.kind == Coding && d.sent == ""
    case Lost => d.status == Running && d.id !in listed && d.sent != "" && d.sent != connID
    case Left => d.status != Running || (d.id !in listed && (if d.kind == Llm then d.sent == "" || d.sent == connID else d.sent == connID && d.sent != ""))
  }

  /** Each directive has one fate. */
  lemma OneFate(d: Directive, listed: set<string>, connID: string)
    ensures exists fate :: Becomes(d, listed, connID, fate) && forall other :: Becomes(d, listed, connID, other) ==> other == fate
  {
    var fate := if d.status != Running then Left else if d.id in listed then Carried
      else if d.sent == "" then (if d.kind == Coding then SentNow else Left) else if d.sent != connID then Lost else Left;
    assert Becomes(d, listed, connID, fate);
  }

  /** out is exactly the directives of that fate, in the database's order. */
  ghost predicate Selects(open: seq<Directive>, listed: set<string>, connID: string, fate: Fate, out: seq<Directive>) {
    if open == [] then out == [] else
    var d := open[|open| - 1];
    if Becomes(d, listed, connID, fate)
      then out != [] && out[|out| - 1] == d && Selects(open[..|open| - 1], listed, connID, fate, out[..|out| - 1])
    else Selects(open[..|open| - 1], listed, connID, fate, out)
  }

  ghost predicate IsOpen(open: seq<Directive>, id: string) {
    exists i :: 0 <= i < |open| && open[i].id == id && open[i].status == Running
  }

  /** out is exactly the IDs of ids the database does not hold running for the machine. */
  ghost predicate Leftover(open: seq<Directive>, ids: seq<string>, out: seq<string>) {
    if ids == [] then out == [] else
    var id := ids[|ids| - 1];
    if IsOpen(open, id) then Leftover(open, ids[..|ids| - 1], out)
    else out != [] && out[|out| - 1] == id && Leftover(open, ids[..|ids| - 1], out[..|out| - 1])
  }

  ghost predicate Planned(open: seq<Directive>, listed: set<string>, connID: string, p: Plan) {
    && Selects(open, listed, connID, Carried, p.attach)
    && Selects(open, listed, connID, SentNow, p.send)
    && Selects(open, listed, connID, Lost, p.lost)
  }

  lemma {:induction false} SelectedMeans(open: seq<Directive>, listed: set<string>, connID: string, fate: Fate, out: seq<Directive>, d: Directive)
    requires Selects(open, listed, connID, fate, out)
    ensures d in out <==> d in open && Becomes(d, listed, connID, fate)
  {
    if open != [] {
      var n := |open| - 1;
      assert open == open[..n] + [open[n]];
      if Becomes(open[n], listed, connID, fate) {
        SelectedMeans(open[..n], listed, connID, fate, out[..|out| - 1], d);
        assert out == out[..|out| - 1] + [out[|out| - 1]];
      } else {
        SelectedMeans(open[..n], listed, connID, fate, out, d);
      }
    }
  }

  /** A hello brings nothing back to life, a call to the model is never sent again, and every running
      coding directive not sent yet is carried on or sent. */
  lemma PlanIsSafe(open: seq<Directive>, listed: set<string>, connID: string, p: Plan, d: Directive)
    requires Planned(open, listed, connID, p)
    ensures d in p.attach ==> d in open && d.status == Running && d.id in listed
    ensures d in p.send ==> d in open && d.kind == Coding && d.sent == "" && d !in p.attach && d !in p.lost
    ensures d in p.lost ==> d in open && d.sent != "" && d.sent != connID && d !in p.attach
    ensures d in open && d.status == Running && d.kind == Coding && d.sent == "" ==> d in p.attach || d in p.send
    ensures d in open && d.status == Running && d.sent != "" && d.sent != connID ==> d in p.attach || d in p.lost
  {
    SelectedMeans(open, listed, connID, Carried, p.attach, d);
    SelectedMeans(open, listed, connID, SentNow, p.send, d);
    SelectedMeans(open, listed, connID, Lost, p.lost, d);
  }

  /** What each list holds, in the terms of the database and of the hello: what the machine still lists is carried
      on, on whatever connection it was sent, and never lost; what was never sent is sent, but for calls to the
      model; lost is only what another connection sent and the machine does not list. */
  lemma CarriedSentOrLost(open: seq<Directive>, listed: set<string>, connID: string, p: Plan, d: Directive)
    requires Planned(open, listed, connID, p)
    ensures d in p.attach <==> d in open && d.status == Running && d.id in listed
    ensures d in p.send <==> d in open && d.status == Running && d.id !in listed && d.kind != Llm && d.sent == ""
    ensures d in p.lost <==> d in open && d.status == Running && d.id !in listed && d.sent !in {"", connID}
  {
    SelectedMeans(open, listed, connID, Carried, p.attach, d);
    SelectedMeans(open, listed, connID, SentNow, p.send, d);
    SelectedMeans(open, listed, connID, Lost, p.lost, d);
  }

  /** A list keeps the database's order, each directive of its fate once: at tells where each is. */
  lemma {:induction false} SelectedInOrder(open: seq<Directive>, listed: set<string>, connID: string, fate: Fate, out: seq<Directive>) returns (at: seq<nat>)
    requires Selects(open, listed, connID, fate, out)
    ensures |at| == |out| && (forall i :: 0 <= i < |at| ==> at[i] < |open| && open[at[i]] == out[i])
    ensures forall i, j :: 0 <= i < j < |at| ==> at[i] < at[j]
    ensures forall k :: 0 <= k < |open| && Becomes(open[k], listed, connID, fate) ==> k in at
  {
    if open == [] {
      at := [];
    } else {
      var n := |open| - 1;
      if Becomes(open[n], listed, connID, fate) {
        var rest := SelectedInOrder(open[..n], listed, connID, fate, out[..|out| - 1]);
        at := rest + [n];
        assert at[|rest|] == n;
        forall k | 0 <= k < n && Becomes(open[k], listed, connID, fate) ensures k in at { assert open[..n][k] == open[k]; }
      } else {
        at := SelectedInOrder(open[..n], listed, connID, fate, out);
        forall k | 0 <= k < n && Becomes(open[k], listed, connID, fate) ensures k in at { assert open[..n][k] == open[k]; }
      }
    }
  }

  /** The machine is told to drop exactly what it lists and the database does not hold running. */
  lemma {:induction false} LeftoverMeans(open: seq<Directive>, ids: seq<string>, out: seq<string>, id: string)
    requires Leftover(open, ids, out)
    ensures id in out <==> id in ids && !IsOpen(open, id)
  {
    if ids != [] {
      var n := |ids| - 1;
      assert ids == ids[..n] + [ids[n]];
      if IsOpen(open, ids[n]) {
        LeftoverMeans(open, ids[..n], out, id);
      } else {
        LeftoverMeans(open, ids[..n], out[..|out| - 1], id);
        assert out == out[..|out| - 1] + [out[|out| - 1]];
      }
    }
  }

  method Unheld(open: seq<Directive>, isOpen: set<string>, ids: seq<string>) returns (out: seq<string>)
    requires forall id :: id in isOpen <==> IsOpen(open, id)
    ensures Leftover(open, ids, out)
  {
    out := [];
    for i := 0 to |ids|
      invariant Leftover(open, ids[..i], out)
    {
      assert ids[..i + 1][..i] == ids[..i];
      if ids[i] !in isOpen {
        assert (out + [ids[i]])[..|out|] == out;
        out := out + [ids[i]];
      }
    }
    assert ids[..|ids|] == ids;
  }

  /** p is the plan the functions above give, each of its lists in the order of the loop that fills it. */
  method Reconcile(open: seq<Directive>, running: seq<string>, finished: seq<string>, connID: string) returns (p: Plan)
    ensures Planned(open, (set id | id in running) + (set id | id in finished), connID, p)
    ensures Leftover(open, running, p.cancel) && Leftover(open, finished, p.ack)
  {
    var listed: set<string> := {};
    for i := 0 to |running|
      invariant listed == set id | id in running[..i]
    {
      assert running[..i + 1] == running[..i] + [running[i]];
      listed := listed + {running[i]};
    }
    assert running[..|running|] == running;
    for i := 0 to |finished|
      invariant listed == (set id | id in running) + set id | id in finished[..i]
    {
      assert finished[..i + 1] == finished[..i] + [finished[i]];
      listed := listed + {finished[i]};
    }
    assert finished[..|finished|] == finished;
    p := Plan([], [], [], [], []);
    var isOpen: set<string> := {};
    for i := 0 to |open|
      invariant Planned(open[..i], listed, connID, p)
      invariant forall id :: id in isOpen <==> IsOpen(open[..i], id)
    {
      var d := open[i];
      OneMore(open, i);
      assert open[..i + 1][..i] == open[..i];
      if d.status != Running {
        continue; // only reserved: in no list
      }
      isOpen := isOpen + {d.id};
      assert (p.attach + [d])[..|p.attach|] == p.attach && (p.send + [d])[..|p.send|] == p.send && (p.lost + [d])[..|p.lost|] == p.lost;
      if d.kind == Llm {
        if d.id in listed {
          p := p.(attach := p.attach + [d]);
        } else if d.sent != "" && d.sent != connID {
          p := p.(lost := p.lost + [d]);
        }
        continue;
      }
      if d.id in listed {
        p := p.(attach := p.attach + [d]);
      } else if d.sent == "" {
        p := p.(send := p.send + [d]);
      } else if d.sent != connID {
        p := p.(lost := p.lost + [d]);
      }
    }
    assert open[..|open|] == open;
    var cancel := Unheld(open, isOpen, running);
    var ack := Unheld(open, isOpen, finished);
    p := p.(cancel := cancel, ack := ack);
  }

  lemma OneMore(open: seq<Directive>, i: nat)
    requires i < |open|
    ensures forall id :: IsOpen(open[..i + 1], id) <==> IsOpen(open[..i], id) || (id == open[i].id && open[i].status == Running)
  {
    forall id ensures IsOpen(open[..i + 1], id) <==> IsOpen(open[..i], id) || (id == open[i].id && open[i].status == Running) {
      assert forall j :: 0 <= j < i ==> open[..i + 1][j] == open[..i][j];
      assert open[..i + 1][i] == open[i];
      if IsOpen(open[..i], id) {
        var j :| 0 <= j < i && open[..i][j].id == id && open[..i][j].status == Running;
        assert open[..i + 1][j].id == id;
      }
    }
  }
}
