/** Every interleaving of deliveries, connections becoming ready, their reconciles, and
    disconnections, for the directives of one machine (gateway/conn.go, gateway/gateway.go, gateway/llm.go). */
module Handoff {
  import opened Text
  import opened Directives

  /** A delivery, step by step: the directive read, the connection found, seen welcomed, the directive
      marked sent, written. */
  datatype Step = Begun | Looking | Found(conn: nat) | Marking(conn: nat) | Writing(conn: nat) | Returned

  datatype Delivery = Delivery(id: nat, llm: bool, step: Step)

  datatype Row = Row(kind: Kind, status: Status, sent: Option<nat>)

  /** A connection: before its welcome; welcomed, its directives not read yet; sending what its plan
      says; reconciled; over. */
  datatype Phase = Opening | Welcomed | Sending | Serving | Ended

  datatype Conn = Conn(phase: Phase, listed: set<nat>, todo: set<nat>, writing: set<nat>)

  /** Who marked a directive sent. */
  datatype Sender = By(delivery: nat) | Reconciling(conn: nat)

  datatype World = World(
    rows: map<nat, Row>,
    deliveries: map<nat, Delivery>,
    conns: map<nat, Conn>,
    held: Option<nat>,
    marked: map<nat, Sender>,
    writes: seq<(nat, Sender)>,
    failed: set<(nat, nat)>)

  datatype Event =
    | Pick(id: nat, kind: Kind)
    | Start(id: nat, t: nat)
    | DeliverAgain(id: nat, t: nat)
    | Read(t: nat)
    | Look(t: nat)
    | Check(t: nat)
    | Mark(t: nat)
    | MarkFails(t: nat, committed: bool)
    | WriteOut(t: nat)
    | Close(id: nat)
    | Open(c: nat, listed: set<nat>)
    | Register(c: nat)
    | Load(c: nat)
    | SendOne(c: nat, id: nat)
    | SendFails(c: nat, id: nat, committed: bool)
    | SendOut(c: nat, id: nat)
    | Reconciled(c: nat)
    | End(c: nat)

  predicate Live(w: World, c: nat) { c in w.conns && !w.conns[c].phase.Ended? }

  /** Welcomed, its directives read from the database. */
  predicate Settled(w: World, c: nat) { c in w.conns && (w.conns[c].phase.Sending? || w.conns[c].phase.Serving?) }

  predicate Welcome(w: World, c: nat) { Settled(w, c) || (c in w.conns && w.conns[c].phase.Welcomed?) }

  predicate At(w: World, t: nat, step: Step) { t in w.deliveries && w.deliveries[t].step == step }

  predicate Enabled(w: World, e: Event) {
    match e
    case Pick(id, _) => id !in w.rows
    case Start(id, t) => id in w.rows && w.rows[id].status == Reserved && t !in w.deliveries
    case DeliverAgain(id, t) => id in w.rows && t !in w.deliveries
    case Read(t) => At(w, t, Begun)
    case Look(t) => At(w, t, Looking)
    case Check(t) => t in w.deliveries && w.deliveries[t].step.Found?
    case Mark(t) => t in w.deliveries && w.deliveries[t].step.Marking? && Live(w, w.deliveries[t].step.conn)
    case MarkFails(t, committed) => t in w.deliveries && w.deliveries[t].step.Marking?
    case WriteOut(t) => t in w.deliveries && w.deliveries[t].step.Writing?
    case Close(id) => id in w.rows
    case Open(c, _) => c !in w.conns
    case Register(c) => c in w.conns && w.conns[c].phase.Opening? && w.held == None
    case Load(c) => c in w.conns && w.conns[c].phase.Welcomed?
    case SendOne(c, id) => c in w.conns && w.conns[c].phase.Sending? && id in w.conns[c].todo
    case SendFails(c, id, committed) => c in w.conns && w.conns[c].phase.Sending? && id in w.conns[c].todo
    case SendOut(c, id) => c in w.conns && id in w.conns[c].writing
    case Reconciled(c) => c in w.conns && w.conns[c].phase.Sending? && w.conns[c].todo == {} && w.conns[c].writing == {}
    case End(c) => Live(w, c)
  }

  /** Whether the one conditional update marks the directive: running, and sent on no connection. */
  predicate Marks(w: World, id: nat) { id in w.rows && w.rows[id].status == Running && w.rows[id].sent == None }

  function Stepped(w: World, t: nat, step: Step): map<nat, Delivery>
    requires t in w.deliveries
  {
    w.deliveries[t := w.deliveries[t].(step := step)]
  }

  function MarkedBy(w: World, id: nat, c: nat, sender: Sender): World
    requires Marks(w, id)
  {
    w.(rows := w.rows[id := w.rows[id].(sent := Some(c))], marked := w.marked[id := sender])
  }

  /** What the plan of a hello sends. */
  function ToSend(w: World, listed: set<nat>): set<nat> {
    set id | id in w.rows && Marks(w, id) && w.rows[id].kind == Coding && id !in listed
  }

  function Apply(w: World, e: Event): World
    requires Enabled(w, e)
  {
    match e
    case Pick(id, kind) => w.(rows := w.rows[id := Row(kind, Reserved, None)])
    case Start(id, t) =>
      w.(rows := w.rows[id := w.rows[id].(status := Running)], deliveries := w.deliveries[t := Delivery(id, w.rows[id].kind == Llm, Begun)])
    case DeliverAgain(id, t) => w.(deliveries := w.deliveries[t := Delivery(id, w.rows[id].kind == Llm, Begun)])
    case Read(t) =>
      var d := w.deliveries[t];
      w.(deliveries := Stepped(w, t, if d.id in w.rows && w.rows[d.id].status == Running && (w.rows[d.id].kind == Llm) == d.llm then Looking else Returned))
    case Look(t) => w.(deliveries := Stepped(w, t, match w.held case None => Returned case Some(c) => Found(c)))
    case Check(t) =>
      var c := w.deliveries[t].step.conn;
      w.(deliveries := Stepped(w, t, if Welcome(w, c) then Marking(c) else Returned))
    case Mark(t) =>
      var d := w.deliveries[t];
      var v := w.(deliveries := Stepped(w, t, if Marks(w, d.id) then Writing(d.step.conn) else Returned));
      if Marks(w, d.id) then MarkedBy(v, d.id, d.step.conn, By(t)) else v
    case MarkFails(t, committed) =>
      var d := w.deliveries[t];
      var v := w.(deliveries := Stepped(w, t, Returned));
      if committed && Marks(w, d.id) then MarkedBy(v, d.id, d.step.conn, By(t))
      else if Live(w, d.step.conn) then v.(failed := w.failed + {(d.step.conn, d.id)}) else v
    case WriteOut(t) =>
      w.(deliveries := Stepped(w, t, Returned), writes := w.writes + [(w.deliveries[t].id, By(t))])
    case Close(id) => w.(rows := w.rows[id := w.rows[id].(status := Over)])
    case Open(c, listed) => w.(conns := w.conns[c := Conn(Opening, listed, {}, {})])
    case Register(c) => w.(conns := w.conns[c := w.conns[c].(phase := Welcomed)], held := Some(c))
    case Load(c) => w.(conns := w.conns[c := w.conns[c].(phase := Sending, todo := ToSend(w, w.conns[c].listed))])
    case SendOne(c, id) =>
      var k := w.conns[c];
      if Marks(w, id) then MarkedBy(w.(conns := w.conns[c := k.(todo := k.todo - {id}, writing := k.writing + {id})]), id, c, Reconciling(c))
      else w.(conns := w.conns[c := k.(todo := k.todo - {id})])
    case SendFails(c, id, committed) =>
      var k := w.conns[c];
      var v := w.(conns := w.conns[c := k.(todo := k.todo - {id})]);
      if committed && Marks(w, id) then MarkedBy(v, id, c, Reconciling(c)) else v.(failed := w.failed + {(c, id)})
    case SendOut(c, id) =>
      w.(conns := w.conns[c := w.conns[c].(writing := w.conns[c].writing - {id})], writes := w.writes + [(id, Reconciling(c))])
    case Reconciled(c) => w.(conns := w.conns[c := w.conns[c].(phase := Serving)])
    case End(c) =>
      w.(conns := w.conns[c := w.conns[c].(phase := Ended, todo := {})], held := if w.held == Some(c) then None else w.held)
  }

  // --- At most once ---

  ghost predicate Written(w: World, id: nat) { exists i :: 0 <= i < |w.writes| && w.writes[i].0 == id }

  /** Whoever marked a directive sent is the one who writes it, once. */
  ghost predicate MarkedSent(w: World) { forall id :: id in w.marked ==> id in w.rows && w.rows[id].sent.Some? }

  ghost predicate WriterOk(w: World, id: nat, sender: Sender) { id in w.marked && w.marked[id] == sender && !Written(w, id) }

  ghost predicate DeliveriesWrite(w: World) {
    forall t :: t in w.deliveries && w.deliveries[t].step.Writing? ==> WriterOk(w, w.deliveries[t].id, By(t))
  }

  ghost predicate ConnsWrite(w: World) {
    forall c, id :: c in w.conns && id in w.conns[c].writing ==> WriterOk(w, id, Reconciling(c))
  }

  ghost predicate WritesOnce(w: World) {
    && (forall i :: 0 <= i < |w.writes| ==> w.writes[i].0 in w.marked && w.marked[w.writes[i].0] == w.writes[i].1)
    && (forall i, j :: 0 <= i < j < |w.writes| ==> w.writes[i].0 != w.writes[j].0)
  }

  ghost predicate OnceInv(w: World) { MarkedSent(w) && DeliveriesWrite(w) && ConnsWrite(w) && WritesOnce(w) }

  /** A reconcile sends no call to the model. */
  ghost predicate TodoCoding(w: World) {
    forall c, id :: c in w.conns && id in w.conns[c].todo ==> id in w.rows && w.rows[id].kind == Coding
  }

  ghost predicate MarkedCoding(w: World) {
    forall id :: id in w.marked && w.marked[id].Reconciling? ==> id in w.rows && w.rows[id].kind == Coding
  }

  lemma MarkedKept(w: World, e: Event)
    requires MarkedSent(w) && Enabled(w, e)
    ensures MarkedSent(Apply(w, e))
  {
  }

  /** What is marked stays marked; what is marked now was not before. */
  lemma MarksStay(w: World, e: Event, id: nat)
    requires MarkedSent(w) && Enabled(w, e) && id in w.marked
    ensures id in Apply(w, e).marked && Apply(w, e).marked[id] == w.marked[id]
  {
    assert !Marks(w, id);
  }

  lemma WrittenNow(w: World, e: Event, id: nat)
    requires Enabled(w, e)
    ensures Written(Apply(w, e), id) <==> Written(w, id) || (e.WriteOut? && id == w.deliveries[e.t].id) || (e.SendOut? && id == e.id)
  {
    var r := Apply(w, e);
    assert e.WriteOut? || e.SendOut? ==> r.writes[|w.writes|].0 == if e.WriteOut? then w.deliveries[e.t].id else e.id;
    if Written(w, id) {
      var i :| 0 <= i < |w.writes| && w.writes[i].0 == id;
      assert r.writes[i].0 == id;
    }
    if Written(r, id) {
      var i :| 0 <= i < |r.writes| && r.writes[i].0 == id;
      assert i < |w.writes| ==> w.writes[i] == r.writes[i];
    }
  }

  lemma DeliveriesKept(w: World, e: Event, t: nat)
    requires OnceInv(w) && Enabled(w, e) && t in Apply(w, e).deliveries && Apply(w, e).deliveries[t].step.Writing?
    ensures WriterOk(Apply(w, e), Apply(w, e).deliveries[t].id, By(t))
  {
    var id := Apply(w, e).deliveries[t].id;
    WrittenNow(w, e, id);
    if t in w.deliveries && w.deliveries[t].step.Writing? {
      assert w.deliveries[t].id == id && WriterOk(w, id, By(t));
      MarksStay(w, e, id);
      WriterIsOne(w, e, id, By(t));
    } else {
      assert e.Mark? && e.t == t;
      NotWritten(w, id);
    }
  }

  lemma NotWritten(w: World, id: nat)
    requires MarkedSent(w) && WritesOnce(w) && Marks(w, id)
    ensures !Written(w, id) && id !in w.marked
  {
  }

  /** Nobody but the one who marked a directive writes it. */
  lemma WriterIsOne(w: World, e: Event, id: nat, sender: Sender)
    requires OnceInv(w) && Enabled(w, e) && id in w.marked && w.marked[id] == sender
    requires sender.By? ==> !(e.WriteOut? && e.t == sender.delivery)
    requires sender.Reconciling? ==> !(e.SendOut? && e.c == sender.conn && e.id == id)
    ensures !(e.WriteOut? && id == w.deliveries[e.t].id) && !(e.SendOut? && id == e.id)
  {
    assert e.WriteOut? ==> WriterOk(w, w.deliveries[e.t].id, By(e.t));
    assert e.SendOut? ==> WriterOk(w, e.id, Reconciling(e.c));
  }

  lemma ConnsWriteKept(w: World, e: Event, c: nat, id: nat)
    requires OnceInv(w) && Enabled(w, e) && c in Apply(w, e).conns && id in Apply(w, e).conns[c].writing
    ensures WriterOk(Apply(w, e), id, Reconciling(c))
  {
    WrittenNow(w, e, id);
    if c in w.conns && id in w.conns[c].writing {
      assert WriterOk(w, id, Reconciling(c));
      MarksStay(w, e, id);
      WriterIsOne(w, e, id, Reconciling(c));
    } else {
      assert e.SendOne? && e.c == c && e.id == id;
      NotWritten(w, id);
    }
  }

  lemma WritesKept(w: World, e: Event)
    requires OnceInv(w) && Enabled(w, e)
    ensures WritesOnce(Apply(w, e))
  {
    var r := Apply(w, e);
    assert e.WriteOut? ==> WriterOk(w, w.deliveries[e.t].id, By(e.t));
    assert e.SendOut? ==> WriterOk(w, e.id, Reconciling(e.c));
    forall i | 0 <= i < |r.writes| ensures r.writes[i].0 in r.marked && r.marked[r.writes[i].0] == r.writes[i].1 {
      if i < |w.writes| { MarksStay(w, e, w.writes[i].0); }
    }
    forall i, j | 0 <= i < j < |r.writes| ensures r.writes[i].0 != r.writes[j].0 {
      if j == |w.writes| { assert r.writes[i] == w.writes[i]; }
    }
  }

  lemma OnceKept(w: World, e: Event)
    requires OnceInv(w) && Enabled(w, e)
    ensures OnceInv(Apply(w, e))
  {
    var r := Apply(w, e);
    MarkedKept(w, e);
    WritesKept(w, e);
    forall t | t in r.deliveries && r.deliveries[t].step.Writing? ensures WriterOk(r, r.deliveries[t].id, By(t)) { DeliveriesKept(w, e, t); }
    forall c, id | c in r.conns && id in r.conns[c].writing ensures WriterOk(r, id, Reconciling(c)) { ConnsWriteKept(w, e, c, id); }
  }

  lemma TodoKept(w: World, e: Event)
    requires TodoCoding(w) && Enabled(w, e)
    ensures TodoCoding(Apply(w, e))
  {
  }

  lemma MarkedCodingKept(w: World, e: Event)
    requires TodoCoding(w) && MarkedCoding(w) && MarkedSent(w) && Enabled(w, e)
    ensures MarkedCoding(Apply(w, e))
  {
  }

  // --- No handoff forgotten ---

  /** A delivery of the directive has not come to its mark yet. */
  ghost predicate Coming(w: World, id: nat) {
    exists t :: t in w.deliveries && w.deliveries[t].id == id && !w.deliveries[t].step.Writing? && !w.deliveries[t].step.Returned?
  }

  /** The connection will send the directive, or its machine says it holds it, or a mark failed there. */
  predicate Covered(w: World, c: nat, id: nat)
    requires c in w.conns
  {
    id in w.conns[c].todo || id in w.conns[c].listed || (c, id) in w.failed
  }

  predicate Waits(w: World, id: nat) { Marks(w, id) && w.rows[id].kind == Coding }

  /** A delivery past its first step is of a directive that ran, of its kind. */
  predicate DeliveryOk(w: World, d: Delivery) {
    && d.id in w.rows && d.llm == (w.rows[d.id].kind == Llm)
    && (d.step.Begun? || d.step.Returned? || w.rows[d.id].status != Reserved)
  }

  ghost predicate DeliveriesOk(w: World) { forall t :: t in w.deliveries ==> DeliveryOk(w, w.deliveries[t]) }

  ghost predicate HandoffInv(w: World) {
    && (forall c: nat :: Welcome(w, c) ==> w.held == Some(c))
    && DeliveriesOk(w)
    && (forall t, c :: t in w.deliveries && Settled(w, c) && Waits(w, w.deliveries[t].id) && Elsewhere(w.deliveries[t].step, c) ==> Covered(w, c, w.deliveries[t].id))
    && (forall id, c :: Waits(w, id) && !Coming(w, id) && Settled(w, c) ==> Covered(w, c, id))
  }

  /** The delivery goes to another connection than c. */
  predicate Elsewhere(step: Step, c: nat) { (step.Found? || step.Marking?) && step.conn != c }

  predicate Moves(e: Event) { e.Read? || e.Look? || e.Check? || e.Mark? || e.MarkFails? || e.WriteOut? }

  /** Deliveries move one at a time. */
  lemma OthersStay(w: World, e: Event, id: nat)
    requires Enabled(w, e) && Coming(w, id) && !Coming(Apply(w, e), id)
    ensures Moves(e) && e.t in w.deliveries && w.deliveries[e.t].id == id && !w.deliveries[e.t].step.Writing?
    ensures Apply(w, e).deliveries[e.t].step.Returned? || Apply(w, e).deliveries[e.t].step.Writing?
  {
    var t :| t in w.deliveries && w.deliveries[t].id == id && !w.deliveries[t].step.Writing? && !w.deliveries[t].step.Returned?;
    var r := Apply(w, e);
    assert t in r.deliveries && r.deliveries[t].id == id;
    assert r.deliveries[t].step.Writing? || r.deliveries[t].step.Returned?;
  }

  lemma ConnsKept(w: World, e: Event, c: nat)
    requires Enabled(w, e) && (forall k: nat :: Welcome(w, k) ==> w.held == Some(k)) && Welcome(Apply(w, e), c)
    ensures Apply(w, e).held == Some(c)
  {
    assert Welcome(w, c) || (e.Register? && e.c == c);
  }

  /** What a settled connection covers it goes on covering, until the directive is sent. */
  lemma CoverKept(w: World, e: Event, id: nat, c: nat)
    requires Enabled(w, e) && Settled(w, c) && Settled(Apply(w, e), c) && Covered(w, c, id) && Waits(Apply(w, e), id)
    ensures Covered(Apply(w, e), c, id)
  {
  }

  /** A connection that settles covers every directive waiting. */
  lemma NewlySettled(w: World, e: Event, id: nat, c: nat)
    requires Enabled(w, e) && !Settled(w, c) && Settled(Apply(w, e), c) && Waits(Apply(w, e), id)
    ensures Covered(Apply(w, e), c, id)
  {
    assert e.Load? && e.c == c;
  }

  /** A directive starts to wait with a delivery of its own. */
  lemma WaitsBefore(w: World, e: Event, id: nat)
    requires Enabled(w, e) && Waits(Apply(w, e), id) && !Coming(Apply(w, e), id)
    ensures Waits(w, id)
  {
    var r := Apply(w, e);
    match e
    case Start(i, t) => assert r.deliveries[t].id == i && r.deliveries[t].step == Begun; assert Coming(r, i);
    case _ =>
  }

  lemma ElsewhereKept(w: World, e: Event, t: nat, c: nat)
    requires HandoffInv(w) && Enabled(w, e)
    requires var r := Apply(w, e);
      t in r.deliveries && Settled(r, c) && Waits(r, r.deliveries[t].id) && Elsewhere(r.deliveries[t].step, c)
    ensures Covered(Apply(w, e), c, Apply(w, e).deliveries[t].id)
  {
    var r := Apply(w, e);
    var id := r.deliveries[t].id;
    if !Settled(w, c) {
      NewlySettled(w, e, id, c);
    } else {
      assert Welcome(w, c);
      assert t in w.deliveries && w.deliveries[t].id == id && DeliveryOk(w, w.deliveries[t]);
      assert Elsewhere(w.deliveries[t].step, c);
      assert Waits(w, id);
      CoverKept(w, e, id, c);
    }
  }

  lemma WaitingCovered(w: World, e: Event, id: nat, c: nat)
    requires HandoffInv(w) && Enabled(w, e)
    requires Waits(Apply(w, e), id) && !Coming(Apply(w, e), id) && Settled(Apply(w, e), c)
    ensures Covered(Apply(w, e), c, id)
  {
    var r := Apply(w, e);
    if !Settled(w, c) {
      NewlySettled(w, e, id, c);
    } else if Coming(w, id) {
      OthersStay(w, e, id);
      LastDelivery(w, e, id, c);
    } else {
      WaitsBefore(w, e, id);
      CoverKept(w, e, id, c);
    }
  }

  /** A delivery that ends without sending leaves the directive to a connection. */
  lemma LastDelivery(w: World, e: Event, id: nat, c: nat)
    requires HandoffInv(w) && Enabled(w, e) && Moves(e) && e.t in w.deliveries && w.deliveries[e.t].id == id
    requires Waits(Apply(w, e), id) && Settled(w, c) && Settled(Apply(w, e), c)
    requires Apply(w, e).deliveries[e.t].step.Returned? || Apply(w, e).deliveries[e.t].step.Writing?
    requires !w.deliveries[e.t].step.Writing?
    ensures Covered(Apply(w, e), c, id)
  {
    assert Welcome(w, c) && DeliveryOk(w, w.deliveries[e.t]);
    assert Waits(w, id);
  }

  lemma DeliveriesOkKept(w: World, e: Event)
    requires DeliveriesOk(w) && Enabled(w, e)
    ensures DeliveriesOk(Apply(w, e))
  {
    var r := Apply(w, e);
    forall t | t in r.deliveries ensures DeliveryOk(r, r.deliveries[t]) {
      if t in w.deliveries { assert DeliveryOk(w, w.deliveries[t]); }
    }
  }

  lemma HandoffKept(w: World, e: Event)
    requires HandoffInv(w) && Enabled(w, e)
    ensures HandoffInv(Apply(w, e))
  {
    var r := Apply(w, e);
    DeliveriesOkKept(w, e);
    forall c: nat | Welcome(r, c) ensures r.held == Some(c) { ConnsKept(w, e, c); }
    forall t, c | t in r.deliveries && Settled(r, c) && Waits(r, r.deliveries[t].id) && Elsewhere(r.deliveries[t].step, c)
      ensures Covered(r, c, r.deliveries[t].id)
    {
      ElsewhereKept(w, e, t, c);
    }
    forall id, c | Waits(r, id) && !Coming(r, id) && Settled(r, c) ensures Covered(r, c, id) { WaitingCovered(w, e, id, c); }
  }

  // --- What is recorded sent is written ---

  /** A directive is recorded sent exactly when it was marked; and whoever marked it wrote it, or is about to. */
  ghost predicate MarkOk(w: World, id: nat)
    requires id in w.marked
  {
    || Written(w, id)
    || (match w.marked[id]
        case By(t) => t in w.deliveries && w.deliveries[t].id == id && w.deliveries[t].step.Writing?
        case Reconciling(c) => c in w.conns && id in w.conns[c].writing)
  }

  ghost predicate SentIsWritten(w: World) {
    && (forall id :: id in w.rows && w.rows[id].sent.Some? ==> id in w.marked)
    && (forall id :: id in w.marked ==> MarkOk(w, id))
  }

  /** A mark the database made, though its sender was told it failed. */
  predicate MarksUnknown(w: World, e: Event)
    requires Enabled(w, e)
  {
    || (e.MarkFails? && e.committed && Marks(w, w.deliveries[e.t].id))
    || (e.SendFails? && e.committed && Marks(w, e.id))
  }

  lemma MarkStays(w: World, e: Event, id: nat)
    requires OnceInv(w) && Enabled(w, e) && id in w.marked && MarkOk(w, id)
    ensures id in Apply(w, e).marked && MarkOk(Apply(w, e), id)
  {
    MarksStay(w, e, id);
    WrittenNow(w, e, id);
  }

  lemma NewMark(w: World, e: Event, id: nat)
    requires OnceInv(w) && Enabled(w, e) && id in Apply(w, e).marked && id !in w.marked
    ensures MarkOk(Apply(w, e), id) <==> !MarksUnknown(w, e)
    ensures MarksUnknown(w, e) ==> id == if e.MarkFails? then w.deliveries[e.t].id else e.id
  {
    WrittenNow(w, e, id);
    assert e.SendFails? && id in w.conns[e.c].writing ==> WriterOk(w, id, Reconciling(e.c));
  }

  lemma UnknownMarks(w: World, e: Event)
    requires MarkedSent(w) && Enabled(w, e) && MarksUnknown(w, e)
    ensures var id := if e.MarkFails? then w.deliveries[e.t].id else e.id; id in Apply(w, e).marked && id !in w.marked
  {
  }

  lemma SentMarked(w: World, e: Event, id: nat)
    requires SentIsWritten(w) && Enabled(w, e) && id in Apply(w, e).rows && Apply(w, e).rows[id].sent.Some?
    ensures id in Apply(w, e).marked
  {
  }

  /** A step keeps it that what is recorded sent is written, or about to be, if and only if it is not a mark made
      whose sender was told it failed. */
  lemma WrittenExactlyWhen(w: World, e: Event)
    requires OnceInv(w) && SentIsWritten(w) && Enabled(w, e)
    ensures SentIsWritten(Apply(w, e)) <==> !MarksUnknown(w, e)
  {
    var r := Apply(w, e);
    forall id | id in r.rows && r.rows[id].sent.Some? ensures id in r.marked { SentMarked(w, e, id); }
    if MarksUnknown(w, e) {
      UnknownMarks(w, e);
      NewMark(w, e, if e.MarkFails? then w.deliveries[e.t].id else e.id);
    } else {
      forall id | id in r.marked ensures MarkOk(r, id) {
        if id in w.marked { MarkStays(w, e, id); } else { NewMark(w, e, id); }
      }
    }
  }

  // --- What a machine says it holds ---

  /** A connection sends nothing its machine listed. */
  ghost predicate SendsUnlisted(w: World) {
    && (forall c, id :: c in w.conns && (id in w.conns[c].todo || id in w.conns[c].writing) ==> id !in w.conns[c].listed)
    && (forall id :: id in w.marked && w.marked[id].Reconciling? ==> w.marked[id].conn in w.conns && id !in w.conns[w.marked[id].conn].listed)
  }

  lemma ConnListed(w: World, e: Event, c: nat)
    requires Enabled(w, e) && c in w.conns
    ensures c in Apply(w, e).conns && Apply(w, e).conns[c].listed == w.conns[c].listed
  {
  }

  lemma UnlistedKept(w: World, e: Event, c: nat, id: nat)
    requires SendsUnlisted(w) && Enabled(w, e) && c in Apply(w, e).conns && (id in Apply(w, e).conns[c].todo || id in Apply(w, e).conns[c].writing)
    ensures id !in Apply(w, e).conns[c].listed
  {
    if c in w.conns { ConnListed(w, e, c); }
  }

  lemma MarkedUnlisted(w: World, e: Event, id: nat)
    requires SendsUnlisted(w) && Enabled(w, e) && id in Apply(w, e).marked && Apply(w, e).marked[id].Reconciling?
    ensures Apply(w, e).marked[id].conn in Apply(w, e).conns && id !in Apply(w, e).conns[Apply(w, e).marked[id].conn].listed
  {
    ConnListed(w, e, Apply(w, e).marked[id].conn);
  }

  lemma {:induction false} RunSendsUnlisted(w: World, events: seq<Event>, last: World)
    requires SendsUnlisted(w) && Reaches(w, events, last)
    ensures SendsUnlisted(last)
    decreases |events|
  {
    if events != [] {
      var r := Apply(w, events[0]);
      forall c, id | c in r.conns && (id in r.conns[c].todo || id in r.conns[c].writing) ensures id !in r.conns[c].listed { UnlistedKept(w, events[0], c, id); }
      forall id | id in r.marked && r.marked[id].Reconciling? ensures r.marked[id].conn in r.conns && id !in r.conns[r.marked[id].conn].listed {
        MarkedUnlisted(w, events[0], id);
      }
      RunSendsUnlisted(r, events[1..], last);
    }
  }

  // --- What forgets a handoff, exactly ---

  /** The delivery may still come to the connection. */
  predicate Toward(step: Step, c: nat) { step.Begun? || step.Looking? || ((step.Found? || step.Marking?) && step.conn == c) }

  /** A delivery of the directive, none but t when but, may still come to the connection. */
  ghost predicate ComingTo(w: World, id: nat, c: nat, but: Option<nat>) {
    exists t :: t in w.deliveries && but != Some(t) && w.deliveries[t].id == id && Toward(w.deliveries[t].step, c)
  }

  /** The connection will send the directive, its machine says it holds it, or a delivery is coming to it. */
  ghost predicate Reached(w: World, c: nat, id: nat)
    requires c in w.conns
  {
    id in w.conns[c].todo || id in w.conns[c].listed || ComingTo(w, id, c, None)
  }

  /** No directive that waits is forgotten by a connection whose directives were read. */
  ghost predicate NoneForgotten(w: World) { forall id, c :: Waits(w, id) && Settled(w, c) ==> Reached(w, c, id) }

  /** The database refuses the mark of a directive, on a connection that then has no other way to it. */
  ghost predicate ForgetsHere(w: World, e: Event, c: nat, id: nat)
    requires Enabled(w, e)
  {
    && Waits(w, id) && Settled(w, c) && id !in w.conns[c].listed
    && match e
      case MarkFails(t, committed) =>
        !committed && w.deliveries[t].id == id && w.deliveries[t].step.conn == c && id !in w.conns[c].todo && !ComingTo(w, id, c, Some(t))
      case SendFails(k, i, committed) => !committed && k == c && i == id && !ComingTo(w, id, c, None)
      case _ => false
  }

  ghost predicate Forgets(w: World, e: Event)
    requires Enabled(w, e)
  {
    exists c, id :: ForgetsHere(w, e, c, id)
  }

  ghost predicate Routed(w: World) { (forall c: nat :: Welcome(w, c) ==> w.held == Some(c)) && DeliveriesOk(w) }

  /** A delivery on its way to a settled connection stays so, until it fails or the directive is sent. */
  lemma TowardStays(w: World, e: Event, t: nat, c: nat)
    requires Routed(w) && Enabled(w, e) && t in w.deliveries && Toward(w.deliveries[t].step, c) && !(e.MarkFails? && e.t == t)
    requires Settled(w, c) && Waits(Apply(w, e), w.deliveries[t].id)
    ensures t in Apply(w, e).deliveries && Apply(w, e).deliveries[t].id == w.deliveries[t].id && Toward(Apply(w, e).deliveries[t].step, c)
  {
    assert Welcome(w, c) && DeliveryOk(w, w.deliveries[t]);
    if Moves(e) { TowardMoves(w, e, t, c); } else { TowardWaits(w, e, t, c); }
  }

  /** A delivery that moves goes to the connection there is, the directive still running. */
  lemma TowardMoves(w: World, e: Event, t: nat, c: nat)
    requires Enabled(w, e) && Moves(e) && t in w.deliveries && Toward(w.deliveries[t].step, c) && !(e.MarkFails? && e.t == t)
    requires w.held == Some(c) && Welcome(w, c) && DeliveryOk(w, w.deliveries[t]) && Waits(Apply(w, e), w.deliveries[t].id)
    ensures t in Apply(w, e).deliveries && Apply(w, e).deliveries[t].id == w.deliveries[t].id && Toward(Apply(w, e).deliveries[t].step, c)
  {
  }

  lemma TowardWaits(w: World, e: Event, t: nat, c: nat)
    requires Enabled(w, e) && !Moves(e) && t in w.deliveries && Toward(w.deliveries[t].step, c)
    ensures t in Apply(w, e).deliveries && Apply(w, e).deliveries[t] == w.deliveries[t]
  {
  }

  lemma ComingStays(w: World, e: Event, id: nat, c: nat, but: Option<nat>)
    requires Routed(w) && Enabled(w, e) && Settled(w, c) && Waits(Apply(w, e), id)
    requires ComingTo(w, id, c, but) && (e.MarkFails? ==> but == Some(e.t))
    ensures ComingTo(Apply(w, e), id, c, None)
  {
    var t :| t in w.deliveries && but != Some(t) && w.deliveries[t].id == id && Toward(w.deliveries[t].step, c);
    TowardStays(w, e, t, c);
  }

  /** A directive that starts to wait has a delivery of its own. */
  lemma StartsComing(w: World, e: Event, id: nat, c: nat)
    requires Enabled(w, e) && !Waits(w, id) && Waits(Apply(w, e), id)
    ensures ComingTo(Apply(w, e), id, c, None)
  {
    var r := Apply(w, e);
    match e
    case Start(i, t) => assert r.deliveries[t].id == i && Toward(r.deliveries[t].step, c);
    case _ =>
  }

  lemma NewlyReached(w: World, e: Event, id: nat, c: nat)
    requires Enabled(w, e) && !Settled(w, c) && Settled(Apply(w, e), c) && Waits(Apply(w, e), id)
    ensures Reached(Apply(w, e), c, id)
  {
    assert e.Load? && e.c == c;
  }

  /** The lists of a settled connection keep a directive that waits, but when its mark fails there. */
  lemma ListsStay(w: World, e: Event, id: nat, c: nat)
    requires Enabled(w, e) && Settled(w, c) && Settled(Apply(w, e), c) && Waits(Apply(w, e), id)
    ensures Apply(w, e).conns[c].listed == w.conns[c].listed
    ensures id in Apply(w, e).conns[c].todo <==> id in w.conns[c].todo && !(e.SendFails? && e.c == c && e.id == id)
  {
  }

  /** A delivery that comes after a failure came before it. */
  lemma ComingBefore(w: World, e: Event, id: nat, c: nat)
    requires Enabled(w, e) && (e.MarkFails? || e.SendFails?) && ComingTo(Apply(w, e), id, c, None)
    ensures ComingTo(w, id, c, if e.MarkFails? then Some(e.t) else None)
  {
    var r := Apply(w, e);
    var t :| t in r.deliveries && r.deliveries[t].id == id && Toward(r.deliveries[t].step, c);
    assert t in w.deliveries && w.deliveries[t] == r.deliveries[t];
  }

  lemma ForgottenHere(w: World, e: Event, id: nat, c: nat)
    requires Enabled(w, e) && ForgetsHere(w, e, c, id)
    ensures Waits(Apply(w, e), id) && Settled(Apply(w, e), c) && !Reached(Apply(w, e), c, id)
  {
    ListsStay(w, e, id, c);
    if ComingTo(Apply(w, e), id, c, None) { ComingBefore(w, e, id, c); }
  }

  lemma StillReached(w: World, e: Event, id: nat, c: nat)
    requires Routed(w) && Enabled(w, e) && Waits(w, id) && Settled(w, c) && Reached(w, c, id)
    requires Waits(Apply(w, e), id) && Settled(Apply(w, e), c) && !ForgetsHere(w, e, c, id)
    ensures Reached(Apply(w, e), c, id)
  {
    ListsStay(w, e, id, c);
    if e.MarkFails? {
      MarkFailsReached(w, e, id, c);
    } else if ComingTo(w, id, c, None) {
      ComingStays(w, e, id, c, None);
    }
  }

  lemma MarkFailsReached(w: World, e: Event, id: nat, c: nat)
    requires Routed(w) && Enabled(w, e) && e.MarkFails? && Waits(w, id) && Settled(w, c) && Reached(w, c, id)
    requires Waits(Apply(w, e), id) && Settled(Apply(w, e), c) && !ForgetsHere(w, e, c, id)
    ensures Reached(Apply(w, e), c, id)
  {
    ListsStay(w, e, id, c);
    if ComingTo(w, id, c, Some(e.t)) {
      ComingStays(w, e, id, c, Some(e.t));
    } else if ComingTo(w, id, c, None) {
      var t :| t in w.deliveries && w.deliveries[t].id == id && Toward(w.deliveries[t].step, c);
      assert t == e.t;
    }
  }

  /** A step forgets no directive that waits if and only if it is not the refusal of a mark, on a connection
      that has no other way to the directive: neither its plan, nor its machine's list, nor a delivery. */
  lemma ForgetsExactlyWhen(w: World, e: Event)
    requires Routed(w) && NoneForgotten(w) && Enabled(w, e)
    ensures NoneForgotten(Apply(w, e)) <==> !Forgets(w, e)
  {
    var r := Apply(w, e);
    if Forgets(w, e) {
      var c, id :| ForgetsHere(w, e, c, id);
      ForgottenHere(w, e, id, c);
    } else {
      forall id, c | Waits(r, id) && Settled(r, c) ensures Reached(r, c, id) {
        if !Settled(w, c) {
          NewlyReached(w, e, id, c);
        } else if !Waits(w, id) {
          StartsComing(w, e, id, c);
        } else {
          assert !ForgetsHere(w, e, c, id);
          StillReached(w, e, id, c);
        }
      }
    }
  }

  // --- Every run ---

  ghost predicate Inv(w: World) { OnceInv(w) && TodoCoding(w) && MarkedCoding(w) && HandoffInv(w) && ServedAll(w) }

  ghost predicate ServedAll(w: World) { forall c :: c in w.conns && w.conns[c].phase.Serving? ==> w.conns[c].todo == {} }

  lemma ServedKept(w: World, e: Event)
    requires ServedAll(w) && Enabled(w, e)
    ensures ServedAll(Apply(w, e))
  {
  }

  ghost predicate Reaches(w: World, events: seq<Event>, last: World)
    decreases |events|
  {
    if events == [] then w == last else Enabled(w, events[0]) && Reaches(Apply(w, events[0]), events[1..], last)
  }

  const EMPTY := World(map[], map[], map[], None, map[], [], {})

  lemma {:induction false} RunKeeps(w: World, events: seq<Event>, last: World)
    requires Inv(w) && Reaches(w, events, last)
    ensures Inv(last)
    decreases |events|
  {
    if events != [] {
      var e := events[0];
      OnceKept(w, e);
      TodoKept(w, e);
      MarkedCodingKept(w, e);
      HandoffKept(w, e);
      ServedKept(w, e);
      RunKeeps(Apply(w, e), events[1..], last);
    }
  }

  /** In every run, a directive is written to a machine once at most, by the one that marked it, and a
      call to the model never by a reconcile. */
  lemma AtMostOnce(events: seq<Event>, last: World)
    requires Reaches(EMPTY, events, last)
    ensures forall i, j :: 0 <= i < j < |last.writes| ==> last.writes[i].0 != last.writes[j].0
    ensures forall i :: 0 <= i < |last.writes| ==> var (id, sender) := last.writes[i];
      id in last.rows && last.rows[id].sent.Some? && (last.rows[id].kind == Llm ==> sender.By?)
  {
    RunKeeps(EMPTY, events, last);
  }

  /** In every run, once a connection's reconcile is over and every delivery has returned, no running
      coding directive of its machine is left unsent, but one the machine itself said it held, or one
      whose mark on this very connection the database refused: the next hello takes it up. */
  lemma NoForgottenHandoff(events: seq<Event>, last: World, c: nat, id: nat)
    requires Reaches(EMPTY, events, last)
    requires c in last.conns && last.conns[c].phase.Serving?
    requires forall t :: t in last.deliveries ==> last.deliveries[t].step.Returned?
    requires id in last.rows && last.rows[id].kind == Coding && last.rows[id].status == Running
    ensures last.rows[id].sent.Some? || id in last.conns[c].listed || (c, id) in last.failed
  {
    RunKeeps(EMPTY, events, last);
    if last.rows[id].sent.None? {
      assert Waits(last, id) && !Coming(last, id) && Settled(last, c);
      assert Covered(last, c, id);
    }
  }

  /** No step of the run is such a refusal. */
  ghost predicate NeverForgets(w: World, events: seq<Event>)
    decreases |events|
  {
    events == [] || (Enabled(w, events[0]) && !Forgets(w, events[0]) && NeverForgets(Apply(w, events[0]), events[1..]))
  }

  lemma {:induction false} RunForgetsNone(w: World, events: seq<Event>, last: World)
    requires HandoffInv(w) && NoneForgotten(w) && Reaches(w, events, last) && NeverForgets(w, events)
    ensures NoneForgotten(last)
    decreases |events|
  {
    if events != [] {
      HandoffKept(w, events[0]);
      ForgetsExactlyWhen(w, events[0]);
      RunForgetsNone(Apply(w, events[0]), events[1..], last);
    }
  }

  /** In every run without such a refusal, once a connection's reconcile is over and every delivery has
      returned, no running coding directive is unsent but one the machine said it held. */
  lemma EveryHandoff(events: seq<Event>, last: World, c: nat, id: nat)
    requires Reaches(EMPTY, events, last) && NeverForgets(EMPTY, events)
    requires c in last.conns && last.conns[c].phase.Serving?
    requires forall t :: t in last.deliveries ==> last.deliveries[t].step.Returned?
    requires id in last.rows && last.rows[id].kind == Coding && last.rows[id].status == Running
    ensures last.rows[id].sent.Some? || id in last.conns[c].listed
  {
    RunKeeps(EMPTY, events, last);
    RunForgetsNone(EMPTY, events, last);
    if last.rows[id].sent.None? {
      assert Waits(last, id) && Settled(last, c);
      assert Reached(last, c, id);
    }
  }

  ghost predicate AllKnown(w: World, events: seq<Event>)
    decreases |events|
  {
    events == [] || (Enabled(w, events[0]) && !MarksUnknown(w, events[0]) && AllKnown(Apply(w, events[0]), events[1..]))
  }

  lemma {:induction false} RunWrites(w: World, events: seq<Event>, last: World)
    requires OnceInv(w) && SentIsWritten(w) && Reaches(w, events, last) && AllKnown(w, events)
    ensures SentIsWritten(last)
    decreases |events|
  {
    if events != [] {
      OnceKept(w, events[0]);
      WrittenExactlyWhen(w, events[0]);
      RunWrites(Apply(w, events[0]), events[1..], last);
    }
  }

  /** In every run without such a mark: once no delivery and no connection is about to write, a directive recorded sent
      was written to its machine. */
  lemma SentWasWritten(events: seq<Event>, last: World, id: nat)
    requires Reaches(EMPTY, events, last) && AllKnown(EMPTY, events)
    requires forall t :: t in last.deliveries ==> !last.deliveries[t].step.Writing?
    requires forall c :: c in last.conns ==> last.conns[c].writing == {}
    requires id in last.rows && last.rows[id].sent.Some?
    ensures exists i :: 0 <= i < |last.writes| && last.writes[i].0 == id
  {
    RunWrites(EMPTY, events, last);
    assert MarkOk(last, id);
  }

  /** In every run, a reconcile writes to its machine nothing the machine said it holds. */
  lemma ListedIsNotSent(events: seq<Event>, last: World, i: nat)
    requires Reaches(EMPTY, events, last) && i < |last.writes| && last.writes[i].1.Reconciling?
    ensures var (id, sender) := last.writes[i]; sender.conn in last.conns && id !in last.conns[sender.conn].listed
  {
    RunKeeps(EMPTY, events, last);
    RunSendsUnlisted(EMPTY, events, last);
  }

  ghost predicate ForgetsOne(w: World) {
    && w.conns.Keys == {0} && w.conns[0].phase.Serving? && w.conns[0].listed == {}
    && (forall t :: t in w.deliveries ==> w.deliveries[t].step.Returned?)
    && 7 in w.rows && w.rows[7] == Row(Coding, Running, None)
  }

  /** A machine connected, nothing to do. */
  const IDLE := World(map[], map[], map[0 := Conn(Serving, {}, {}, {})], Some(0), map[], [], {})

  lemma Connects()
    ensures Reaches(EMPTY, [Open(0, {}), Register(0), Load(0), Reconciled(0)], IDLE)
  {
    var w1 := Apply(EMPTY, Open(0, {}));
    var w2 := Apply(w1, Register(0));
    var w3 := Apply(w2, Load(0));
    assert ToSend(w2, {}) == {};
    assert Apply(w3, Reconciled(0)) == IDLE;
    Append(w2, Load(0), Reconciled(0), [], IDLE);
    Append(EMPTY, Open(0, {}), Register(0), [Load(0), Reconciled(0)], IDLE);
  }

  /** Without the last exception it is false: from a machine connected with nothing to do, a delivery
      returns, the connection is up, and the directive waits for the machine's next hello. */
  lemma ForgottenWhenTheMarkFails(events: seq<Event>)
    requires events == [Pick(7, Coding), Start(7, 0), Read(0), Look(0), Check(0), MarkFails(0, false)]
    ensures exists last :: Reaches(IDLE, events, last) && ForgetsOne(last)
  {
    var w2 := Apply(Apply(IDLE, Pick(7, Coding)), Start(7, 0));
    assert w2 == IDLE.(rows := map[7 := Row(Coding, Running, None)], deliveries := map[0 := Delivery(7, false, Begun)]);
    var w6 := LastForgotten(w2, events[2..]);
    Append(IDLE, Pick(7, Coding), Start(7, 0), events[2..], w6);
    assert events == [Pick(7, Coding), Start(7, 0)] + events[2..];
    assert Reaches(IDLE, events, w6);
  }

  lemma LastForgotten(w: World, events: seq<Event>) returns (last: World)
    requires w == IDLE.(rows := map[7 := Row(Coding, Running, None)], deliveries := map[0 := Delivery(7, false, Begun)])
    requires events == [Read(0), Look(0), Check(0), MarkFails(0, false)]
    ensures Reaches(w, events, last) && ForgetsOne(last)
  {
    var w4 := Apply(Apply(w, Read(0)), Look(0));
    assert w4 == w.(deliveries := map[0 := Delivery(7, false, Found(0))]);
    last := Apply(Apply(w4, Check(0)), MarkFails(0, false));
    Append(w4, Check(0), MarkFails(0, false), [], last);
    Append(w, Read(0), Look(0), [Check(0), MarkFails(0, false)], last);
  }

  ghost predicate Unwritten(w: World) {
    && (forall t :: t in w.deliveries ==> w.deliveries[t].step.Returned?)
    && 7 in w.rows && w.rows[7] == Row(Coding, Running, Some(0)) && w.writes == []
  }

  /** With one it is false: the mark is made, its delivery is told it failed and returns, and the directive, recorded
      sent, was never written. */
  lemma UnwrittenWhenTheMarkIsUnknown(events: seq<Event>) returns (last: World)
    requires events == [Pick(7, Coding), Start(7, 0), Read(0), Look(0), Check(0), MarkFails(0, true)]
    ensures Reaches(IDLE, events, last) && Unwritten(last)
  {
    var w2 := Apply(Apply(IDLE, Pick(7, Coding)), Start(7, 0));
    assert w2 == IDLE.(rows := map[7 := Row(Coding, Running, None)], deliveries := map[0 := Delivery(7, false, Begun)]);
    last := LastUnwritten(w2, events[2..]);
    Append(IDLE, Pick(7, Coding), Start(7, 0), events[2..], last);
    assert events == [Pick(7, Coding), Start(7, 0)] + events[2..];
  }

  lemma LastUnwritten(w: World, events: seq<Event>) returns (last: World)
    requires w == IDLE.(rows := map[7 := Row(Coding, Running, None)], deliveries := map[0 := Delivery(7, false, Begun)])
    requires events == [Read(0), Look(0), Check(0), MarkFails(0, true)]
    ensures Reaches(w, events, last) && Unwritten(last)
  {
    var w4 := Apply(Apply(w, Read(0)), Look(0));
    assert w4 == w.(deliveries := map[0 := Delivery(7, false, Found(0))]);
    last := Apply(Apply(w4, Check(0)), MarkFails(0, true));
    Append(w4, Check(0), MarkFails(0, true), [], last);
    Append(w, Read(0), Look(0), [Check(0), MarkFails(0, true)], last);
  }

  lemma Append(w: World, a: Event, b: Event, rest: seq<Event>, last: World)
    requires Enabled(w, a) && Enabled(Apply(w, a), b) && Reaches(Apply(Apply(w, a), b), rest, last)
    ensures Reaches(w, [a, b] + rest, last)
  {
    var events := [a, b] + rest;
    assert events[1..] == [b] + rest && events[1..][1..] == rest;
  }
}
