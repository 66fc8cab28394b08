/** The result of a directive on its way from its machine to its activity (gateway/conn.go,
    gateway/gateway.go, machine/connect): kept somewhere until the activity has it, whatever fails. */
module Results {
  import opened Text

  /** A handler of the result, on a connection or in the sweep: the directive read, its result kept,
      its activity completed, the row closed, the machine told. */
  datatype Step = Getting | Saving | Completing(tries: nat) | Closing | Acking

  /** The activity at Temporal: awaiting its result, given one, or gone. */
  datatype Activity = Pending | Completed | Gone

  /** One directive, sent to its machine. open: its row is running; kept: its row holds the result;
      cancelled: its workflow asked it to stop; finished: its machine ended it; held: the machine has the
      result on disk; acked: it was told to drop it, the result handled; dropped: it threw it away when
      told to stop. acks, sends and stops are the messages of each kind on their way. */
  datatype Directive = Directive(
    open: bool, kept: bool, activity: Activity, cancelled: bool,
    finished: bool, held: bool, acked: bool, dropped: bool,
    acks: nat, sends: nat, stops: nat)

  /** The directive, whether its completion is claimed, the handlers of its result; whether the sweep has it
      on its list; whether its row was closed as lost or revoked, and those that end its activity with an
      error then, by the tries they have left. */
  datatype World = World(d: Directive, claimed: bool, handlers: map<nat, Step>, listed: bool, ended: bool, enders: map<nat, nat>)

  datatype Answer = Accepted | NotFound | Failed(done: bool)

  /** What a handler does next. */
  datatype Move = Get(error: bool) | Save(error: bool) | Complete(answer: Answer) | CloseRow(error: bool) | Ack

  /** What happens around: on the machine, on the network, to the workflow, to the row. */
  datatype Around =
    | Finish | Send | TakeAck | TakeStop
    | Lose | Leaves | AskStop
    | RowEnds | Heartbeat | ListedOver

  datatype Event =
    | Handle(t: nat, move: Move) | Receive(t: nat) | List | Sweep(t: nat) | Restart | Happens(what: Around)
    | EndRow(t: nat, told: bool) | End(t: nat, answer: Answer)

  /** Attempts a finisher's counter allows; past them it stops, the row as it is. */
  const TRIES := 5

  predicate CanMove(d: Directive, step: Step, move: Move) {
    match move
    case Get(_) => step.Getting?
    case Save(_) => step.Saving?
    case Complete(answer) => step.Completing? && step.tries > 0 && Answers(d, answer)
    case CloseRow(_) => step.Closing?
    case Ack => step.Acking?
  }

  /** What a handler's move makes of the directive. */
  function Handled(d: Directive, move: Move): Directive {
    match move
    case Get(_) => d
    case Save(error) => if !error && d.open then d.(kept := true) else d
    case Complete(answer) => if (answer.Accepted? || (answer.Failed? && answer.done)) && d.activity == Pending then d.(activity := Completed) else d
    case CloseRow(error) => if error then d else d.(open := false)
    case Ack => d.(acks := d.acks + 1)
  }

  /** The handler's next step; none when it ends. */
  function NextStep(d: Directive, step: Step, move: Move): Option<Step>
    requires CanMove(d, step, move)
  {
    match move
    case Get(error) => if error then None else Some(if d.open then Saving else Acking)
    case Save(error) => if error then None else Some(if d.open then Completing(TRIES) else Acking)
    case Complete(answer) =>
      if !answer.Failed? then Some(Closing) else if step.tries == 1 then None else Some(Completing(step.tries - 1))
    case CloseRow(_) => Some(Acking)
    case Ack => None
  }

  predicate CanHappen(d: Directive, what: Around) {
    match what
    case Finish => !d.finished
    case Send => d.held
    case TakeAck => d.acks > 0
    case TakeStop => d.stops > 0
    case ListedOver => d.held && !d.open
    case _ => true
  }

  function Happened(d: Directive, what: Around): Directive
    requires CanHappen(d, what)
  {
    match what
    case Finish => d.(finished := true, held := true)
    case Send => d.(sends := d.sends + 1)
    case TakeAck => d.(acks := d.acks - 1, acked := true, held := false)
    // Told to stop, a machine drops the result of a directive it ended.
    case TakeStop => if d.finished then d.(stops := d.stops - 1, held := false, dropped := d.dropped || d.held) else d.(stops := d.stops - 1)
    case Lose => d.(acks := 0, sends := 0, stops := 0)
    case Leaves => if d.activity == Pending then d.(activity := Gone) else d
    case AskStop => d.(cancelled := true)
    // Past its deadline: its machine is told to stop.
    case RowEnds => d.(open := false, stops := d.stops + 1)
    // A heartbeat tells of an activity over, and the row is closed; or of a workflow that asked to stop.
    case Heartbeat =>
      if d.activity != Pending then d.(open := false, stops := d.stops + 1)
      else if d.cancelled then d.(stops := d.stops + 1) else d
    // A hello that lists a result of a directive over is acked.
    case ListedOver => d.(acks := d.acks + 1)
  }

  /** Temporal accepts a completion of an activity that waits, and finds no other. */
  predicate Answers(d: Directive, answer: Answer) {
    (answer.Accepted? ==> d.activity == Pending) && (answer.NotFound? ==> d.activity != Pending)
  }

  predicate Enabled(w: World, e: Event) {
    match e
    case Handle(t, move) => t in w.handlers && CanMove(w.d, w.handlers[t], move)
    case Receive(t) => w.d.sends > 0 && t !in w.handlers
    case List => true
    case Sweep(t) => w.listed && t !in w.handlers
    case Restart => true
    case Happens(what) => CanHappen(w.d, what)
    case EndRow(t, told) => w.d.open && t !in w.enders
    case End(t, answer) => t in w.enders && w.enders[t] > 0 && Answers(w.d, answer)
  }

  function Apply(w: World, e: Event): World
    requires Enabled(w, e)
  {
    match e
    case Handle(t, move) =>
      var next := NextStep(w.d, w.handlers[t], move);
      if next.Some? then w.(d := Handled(w.d, move), handlers := w.handlers[t := next.value])
      else w.(d := Handled(w.d, move), claimed := false, handlers := w.handlers - {t})
    // The read loop claims a result before it handles it: one handled already is let go.
    case Receive(t) =>
      var d := w.d.(sends := w.d.sends - 1);
      if w.claimed then w.(d := d) else w.(d := d, claimed := true, handlers := w.handlers[t := Getting])
    // The sweep lists the rows with a result, then claims each, in its own time.
    case List => w.(listed := w.d.open && w.d.kept)
    case Sweep(t) => if w.claimed then w else w.(claimed := true, handlers := w.handlers[t := Completing(1)])
    // The gateway restarts: what it was doing stops, what was on its connections is lost.
    case Restart => World(w.d.(acks := 0, sends := 0, stops := 0), false, map[], false, w.ended, map[])
    case Happens(what) => w.(d := Happened(w.d, what))
    // A hello that does not list it, or a revocation: the one that closes the row ends the activity, with
    // no claim.
    case EndRow(t, told) =>
      w.(d := w.d.(open := false, stops := if told then w.d.stops + 1 else w.d.stops), ended := true, enders := w.enders[t := TRIES])
    case End(t, answer) =>
      w.(d := Handled(w.d, Complete(answer)),
         enders := if answer.Failed? && w.enders[t] > 1 then w.enders[t := w.enders[t] - 1] else w.enders - {t})
  }

  /** The activity has the result, or nobody waits for it any more. */
  predicate Settled(d: Directive) { !d.open || d.activity != Pending }

  predicate Facts(d: Directive) {
    && (d.acks > 0 || d.acked ==> Settled(d))
    && (d.held || d.sends > 0 ==> d.finished)
    && (d.stops > 0 ==> d.cancelled || Settled(d))
    && (d.finished ==> d.held || d.kept || Settled(d) || (d.cancelled && d.dropped))
  }

  predicate StepOk(d: Directive, step: Step) {
    match step
    case Closing => d.activity != Pending
    case Acking => Settled(d)
    case _ => true
  }

  /** At most one handler at a time, while the directive is claimed. */
  ghost predicate OneHandler(w: World) {
    && (forall t, u :: t in w.handlers && u in w.handlers ==> t == u)
    && (w.claimed <==> w.handlers != map[])
  }

  /** At most one ends the activity of a row lost or revoked: the one that closed it. */
  ghost predicate OneEnder(w: World) {
    && (forall t, u :: t in w.enders && u in w.enders ==> t == u)
    && (w.enders != map[] ==> !w.d.open) && (w.enders != map[] ==> w.ended)
  }

  ghost predicate Inv(w: World) {
    OneHandler(w) && OneEnder(w) && Facts(w.d) && forall t :: t in w.handlers ==> StepOk(w.d, w.handlers[t])
  }

  lemma HandledKeeps(d: Directive, step: Step, move: Move)
    requires Facts(d) && StepOk(d, step) && CanMove(d, step, move)
    ensures Facts(Handled(d, move)) && (NextStep(d, step, move).Some? ==> StepOk(Handled(d, move), NextStep(d, step, move).value))
  {
  }

  lemma MachineKeeps(d: Directive, what: Around)
    requires Facts(d) && CanHappen(d, what) && (what.Finish? || what.Send? || what.TakeAck? || what.TakeStop?)
    ensures Facts(Happened(d, what)) && Happened(d, what).open == d.open && Happened(d, what).activity == d.activity
  {
  }

  lemma NetworkKeeps(d: Directive, what: Around)
    requires Facts(d) && CanHappen(d, what) && (what.Lose? || what.Leaves? || what.AskStop? || what.ListedOver?)
    ensures Facts(Happened(d, what)) && Happened(d, what).open == d.open && (d.activity != Pending ==> Happened(d, what).activity == d.activity)
  {
  }

  lemma RowKeeps(d: Directive, what: Around)
    requires Facts(d) && CanHappen(d, what) && (what.RowEnds? || what.Heartbeat?)
    ensures Facts(Happened(d, what)) && (Happened(d, what).open ==> d.open) && Happened(d, what).activity == d.activity
  {
  }

  lemma HappenedKeeps(d: Directive, what: Around)
    requires Facts(d) && CanHappen(d, what)
    ensures Facts(Happened(d, what)) && (Happened(d, what).open ==> d.open)
    ensures forall step :: StepOk(d, step) ==> StepOk(Happened(d, what), step)
  {
    if what.Finish? || what.Send? || what.TakeAck? || what.TakeStop? {
      MachineKeeps(d, what);
    } else if what.RowEnds? || what.Heartbeat? {
      RowKeeps(d, what);
    } else {
      NetworkKeeps(d, what);
    }
  }

  lemma Alone<T>(some: map<nat, T>, t: nat)
    requires t in some && forall u, v :: u in some && v in some ==> u == v
    ensures some - {t} == map[] && forall u :: u in some ==> u == t
  {
  }

  lemma HandleKeeps(w: World, e: Event)
    requires Inv(w) && Enabled(w, e) && e.Handle?
    ensures Inv(Apply(w, e))
  {
    Alone(w.handlers, e.t);
    HandledKeeps(w.d, w.handlers[e.t], e.move);
  }

  lemma EndKeeps(w: World, e: Event)
    requires Inv(w) && Enabled(w, e) && e.End?
    ensures Inv(Apply(w, e))
  {
    Alone(w.enders, e.t);
  }

  lemma EndRowKeeps(w: World, e: Event)
    requires Inv(w) && Enabled(w, e) && e.EndRow?
    ensures Inv(Apply(w, e))
  {
    assert w.enders == map[];
  }

  lemma AroundKeeps(w: World, d: Directive)
    requires Inv(w) && Facts(d) && (d.open ==> w.d.open)
    requires forall step :: StepOk(w.d, step) ==> StepOk(d, step)
    ensures Inv(w.(d := d))
  {
  }

  lemma HappensKeeps(w: World, what: Around)
    requires Inv(w) && CanHappen(w.d, what)
    ensures Inv(Apply(w, Happens(what)))
  {
    HappenedKeeps(w.d, what);
    AroundKeeps(w, Happened(w.d, what));
  }

  lemma StepKeeps(w: World, e: Event)
    requires Inv(w) && Enabled(w, e)
    ensures Inv(Apply(w, e))
  {
    match e
    case Handle(t, move) => HandleKeeps(w, e);
    case Happens(what) => HappensKeeps(w, what);
    case EndRow(t, told) => EndRowKeeps(w, e);
    case End(t, answer) => EndKeeps(w, e);
    case _ =>
  }

  ghost predicate Reaches(w: World, events: seq<Event>, last: World)
    decreases |events|
  {
    if events == [] then w == last else Enabled(w, events[0]) && Reaches(Apply(w, events[0]), events[1..], last)
  }

  /** A directive its machine was sent and runs. */
  const SENT := World(Directive(true, false, Pending, false, false, false, false, false, 0, 0, 0), false, map[], false, false, map[])

  lemma {:induction false} RunKeeps(w: World, events: seq<Event>, last: World)
    requires Inv(w) && Reaches(w, events, last)
    ensures Inv(last)
    decreases |events|
  {
    if events != [] {
      StepKeeps(w, events[0]);
      RunKeeps(Apply(w, events[0]), events[1..], last);
    }
  }

  /** In every run: a machine acked has a directive whose row is over, or whose activity has its result
      or is gone. */
  lemma AckedIsSettled(events: seq<Event>, last: World)
    requires Reaches(SENT, events, last) && last.d.acked
    ensures !last.d.open || last.d.activity == Completed || last.d.activity == Gone
  {
    RunKeeps(SENT, events, last);
  }

  /** In every run, no two completions with the machine's result overlap: each holds the directive's claim.
      One that ends the activity with an error holds none; it is the one that closed the row as lost or
      revoked. */
  lemma CompletionsExclude(events: seq<Event>, last: World)
    requires Reaches(SENT, events, last)
    ensures forall t, u :: t in last.handlers && u in last.handlers ==> t == u && last.claimed
    ensures forall t, u :: t in last.enders && u in last.enders ==> t == u && last.ended && !last.d.open
  {
    RunKeeps(SENT, events, last);
  }

  ghost predicate Completes(w: World) { exists t :: t in w.handlers && w.handlers[t].Completing? }

  ghost predicate Overlap(w: World) { Completes(w) && w.enders != map[] }

  /** A step lets a completion with the result and one with an error overlap if and only if it closes the row
      as lost or revoked while one is under way, or is a sweep's that listed the row before. */
  lemma OverlapExactlyWhen(w: World, e: Event)
    requires Inv(w) && Enabled(w, e) && !Overlap(w)
    ensures Overlap(Apply(w, e)) <==> (e.EndRow? && Completes(w)) || (e.Sweep? && !w.claimed && w.enders != map[])
  {
    var next := Apply(w, e);
    if e.EndRow? { assert e.t in next.enders; }
    if e.Sweep? && !w.claimed { assert next.handlers[e.t].Completing?; }
    if e.Handle? { HandleDoesNotOverlap(w, e); }
    if e.End? { assert next.enders != map[] ==> w.enders != map[]; }
  }

  lemma HandleDoesNotOverlap(w: World, e: Event)
    requires Inv(w) && Enabled(w, e) && !Overlap(w) && e.Handle?
    ensures !Overlap(Apply(w, e))
  {
    Alone(w.handlers, e.t);
    if w.enders != map[] {
      var next := NextStep(w.d, w.handlers[e.t], e.move);
      assert !w.handlers[e.t].Completing?;
      assert next.Some? ==> !next.value.Completing?;
    }
  }

  // --- The result, until its activity has it ---

  /** The result of a directive its machine ended, while its activity waits for it, is on the machine's
      disk or in the row. */
  predicate Safe(d: Directive) { d.finished && d.open && d.activity == Pending ==> d.held || d.kept }

  /** The machine, told to stop, drops the only copy of a result its activity waits for. */
  predicate DropsIt(d: Directive, e: Event) {
    e.Happens? && e.what.TakeStop? && d.finished && d.held && !d.kept && d.open && d.activity == Pending
  }

  lemma HappenedKept(d: Directive, what: Around)
    requires Facts(d) && CanHappen(d, what) && Safe(d)
    ensures Safe(Happened(d, what)) <==> !DropsIt(d, Happens(what))
  {
  }

  lemma HandledKept(d: Directive, move: Move)
    requires Safe(d)
    ensures Safe(Handled(d, move))
  {
  }

  lemma OthersKept(w: World, e: Event)
    requires Enabled(w, e) && Safe(w.d) && !e.Happens? && !e.Handle?
    ensures Safe(Apply(w, e).d)
  {
    if e.End? { HandledKept(w.d, Complete(e.answer)); }
  }

  /** A step keeps the result if and only if it is not that. */
  lemma KeptExactlyWhen(w: World, e: Event)
    requires Inv(w) && Enabled(w, e) && Safe(w.d)
    ensures Safe(Apply(w, e).d) <==> !DropsIt(w.d, e)
  {
    match e
    case Happens(what) => HappenedKept(w.d, what);
    case Handle(t, move) => HandledKept(w.d, move);
    case _ => OthersKept(w, e);
  }

  ghost predicate NeverDrops(w: World, events: seq<Event>)
    decreases |events|
  {
    events == [] || (Enabled(w, events[0]) && !DropsIt(w.d, events[0]) && NeverDrops(Apply(w, events[0]), events[1..]))
  }

  lemma {:induction false} KeptAlong(w: World, events: seq<Event>, last: World)
    requires Inv(w) && Safe(w.d) && Reaches(w, events, last) && NeverDrops(w, events)
    ensures Safe(last.d)
    decreases |events|
  {
    if events != [] {
      StepKeeps(w, events[0]);
      KeptExactlyWhen(w, events[0]);
      KeptAlong(Apply(w, events[0]), events[1..], last);
    }
  }

  /** In every run, with Temporal failing, connections dropping and the gateway restarting, the result is
      kept until its activity has it, while the machine does not drop it; and a machine only does when its
      directive's workflow asked it to stop. */
  lemma NeverLost(events: seq<Event>, last: World)
    requires Reaches(SENT, events, last)
    ensures NeverDrops(SENT, events) ==> Safe(last.d)
    ensures Safe(last.d) || (last.d.cancelled && last.d.dropped)
  {
    RunKeeps(SENT, events, last);
    if NeverDrops(SENT, events) { KeptAlong(SENT, events, last); }
  }

  // --- A run that loses it ---

  ghost predicate Leads(w: World, e: Event, next: World) { Enabled(w, e) && Apply(w, e) == next }

  lemma Onward(events: seq<Event>, k: nat, w: World, next: World, last: World)
    requires k < |events| && Leads(w, events[k], next) && Reaches(next, events[k + 1..], last)
    ensures Reaches(w, events[k..], last)
  {
    assert events[k..][1..] == events[k + 1..];
  }

  const STOPPED := [Happens(Finish), Happens(Send), Happens(AskStop), Happens(Heartbeat), Happens(TakeStop), Happens(Around.Lose)]

  lemma LostInTheEnd(d: Directive, last: Directive)
    requires d == SENT.d.(finished := true, held := true, sends := 1) && last == d.(sends := 0, cancelled := true, dropped := true, held := false)
    ensures Reaches(SENT.(d := d), STOPPED[2..], SENT.(d := last))
  {
    var w3 := SENT.(d := d.(cancelled := true));
    var w4 := w3.(d := w3.d.(stops := 1));
    var w5 := w4.(d := w4.d.(stops := 0, held := false, dropped := true));
    assert STOPPED[6..] == [];
    Onward(STOPPED, 5, w5, SENT.(d := last), SENT.(d := last));
    Onward(STOPPED, 4, w4, w5, SENT.(d := last));
    Onward(STOPPED, 3, w3, w4, SENT.(d := last));
    Onward(STOPPED, 2, SENT.(d := d), w3, SENT.(d := last));
  }

  /** The machine ends the directive and sends its result, its workflow asks it to stop, and the connection
      breaks: the result is nowhere, and the activity waits. */
  lemma LostWhenAskedToStop()
    ensures exists last :: Reaches(SENT, STOPPED, last) && !Safe(last.d) && last.d.sends == 0 && last.handlers == map[]
  {
    var d := SENT.d.(finished := true, held := true);
    var last := SENT.(d := d.(cancelled := true, dropped := true, held := false));
    LostInTheEnd(d.(sends := 1), last.d);
    Onward(STOPPED, 1, SENT.(d := d), SENT.(d := d.(sends := 1)), last);
    Onward(STOPPED, 0, SENT, SENT.(d := d), last);
    assert STOPPED[0..] == STOPPED;
  }

  const REVOKED := [Happens(Finish), Happens(Send), Receive(0), Handle(0, Get(false)), Handle(0, Save(false)), EndRow(1, true)]

  /** The machine is revoked while its result is being completed: two completions at once, the row closed. */
  lemma CompletionsOverlap()
    ensures exists last :: Reaches(SENT, REVOKED, last) && Overlap(last) && last.d.activity == Pending
  {
    var d := SENT.d;
    var w1 := SENT.(d := d.(finished := true, held := true));
    var w2 := w1.(d := w1.d.(sends := 1));
    var w3 := w2.(d := w1.d, claimed := true, handlers := map[0 := Getting]);
    var w4 := w3.(handlers := map[0 := Saving]);
    var w5 := w4.(d := w4.d.(kept := true), handlers := map[0 := Completing(TRIES)]);
    var w6 := w5.(d := w5.d.(open := false, stops := 1), ended := true, enders := map[1 := TRIES]);
    assert REVOKED[6..] == [];
    Onward(REVOKED, 5, w5, w6, w6);
    Onward(REVOKED, 4, w4, w5, w6);
    Onward(REVOKED, 3, w3, w4, w6);
    Onward(REVOKED, 2, w2, w3, w6);
    Onward(REVOKED, 1, w1, w2, w6);
    Onward(REVOKED, 0, SENT, w1, w6);
    assert REVOKED[0..] == REVOKED;
    assert w6.handlers[0].Completing? && 1 in w6.enders;
  }

  /** Whatever the directive went through: once its result is in the row, nobody handles it and
      Temporal answers, one sweep completes its activity and closes it. */
  lemma SweepSettles(w: World, t: nat, answer: Answer, events: seq<Event>)
    requires Inv(w) && w.d.open && w.d.kept && w.handlers == map[]
    requires answer == if w.d.activity == Pending then Accepted else NotFound
    requires events == [List, Sweep(t), Handle(t, Complete(answer)), Handle(t, CloseRow(false))]
    ensures exists last :: Reaches(w, events, last) && !last.d.open && last.d.activity != Pending
  {
    var w0 := Apply(w, List);
    var w1 := Apply(w0, Sweep(t));
    var w2 := Apply(w1, Handle(t, Complete(answer)));
    var w3 := Apply(w2, Handle(t, CloseRow(false)));
    assert events[4..] == [];
    Onward(events, 3, w2, w3, w3);
    Onward(events, 2, w1, w2, w3);
    Onward(events, 1, w0, w1, w3);
    Onward(events, 0, w, w0, w3);
    assert events[0..] == events;
  }

  /** And from the machine: with nothing failing, a result on disk, sent, is read, kept in the row, given to the
      activity, which gets it, then the row is closed, and the machine told, which drops its copy only then. */
  lemma ResultGoesThrough(w: World, t: nat, events: seq<Event>) returns (last: World)
    requires Inv(w) && w.d.open && w.d.activity == Pending && w.d.held && w.handlers == map[]
    requires events == [Happens(Send), Receive(t), Handle(t, Get(false)), Handle(t, Save(false)), Handle(t, Complete(Accepted)),
      Handle(t, CloseRow(false)), Handle(t, Ack), Happens(TakeAck)]
    ensures Reaches(w, events, last) && last.d == w.d.(open := false, kept := true, activity := Completed, held := false, acked := true)
    ensures last.handlers == map[] && !last.claimed && last.enders == w.enders
  {
    var w1 := Apply(w, Happens(Send));
    var w2 := Apply(w1, Receive(t));
    last := ReceivedGoesThrough(w2, t, events[2..]);
    Onward(events, 1, w1, w2, last);
    Onward(events, 0, w, w1, last);
    assert events[0..] == events;
  }

  lemma ReceivedGoesThrough(w: World, t: nat, events: seq<Event>) returns (last: World)
    requires w.handlers == map[t := Getting] && w.d.open && w.d.activity == Pending
    requires events == [Handle(t, Get(false)), Handle(t, Save(false)), Handle(t, Complete(Accepted)),
      Handle(t, CloseRow(false)), Handle(t, Ack), Happens(TakeAck)]
    ensures Reaches(w, events, last) && last.d == w.d.(open := false, kept := true, activity := Completed, held := false, acked := true)
    ensures last.handlers == map[] && !last.claimed && last.enders == w.enders
  {
    var w1 := Apply(w, Handle(t, Get(false)));
    var w2 := Apply(w1, Handle(t, Save(false)));
    assert w2 == w.(d := w.d.(kept := true), handlers := map[t := Completing(TRIES)]);
    last := KeptGoesThrough(w2, t, events[2..]);
    Onward(events, 1, w1, w2, last);
    Onward(events, 0, w, w1, last);
    assert events[0..] == events;
  }

  lemma KeptGoesThrough(w: World, t: nat, events: seq<Event>) returns (last: World)
    requires w.handlers == map[t := Completing(TRIES)] && w.d.activity == Pending
    requires events == [Handle(t, Complete(Accepted)), Handle(t, CloseRow(false)), Handle(t, Ack), Happens(TakeAck)]
    ensures Reaches(w, events, last) && last.d == w.d.(open := false, activity := Completed, held := false, acked := true)
    ensures last.handlers == map[] && !last.claimed && last.enders == w.enders
  {
    var w1 := Apply(w, Handle(t, Complete(Accepted)));
    var w2 := Apply(w1, Handle(t, CloseRow(false)));
    var w3 := Apply(w2, Handle(t, Ack));
    last := Apply(w3, Happens(TakeAck));
    assert w3.handlers == map[];
    assert events[4..] == [];
    Onward(events, 3, w3, last, last);
    Onward(events, 2, w2, w3, last);
    Onward(events, 1, w1, w2, last);
    Onward(events, 0, w, w1, last);
    assert events[0..] == events;
  }

  /** A directive lost or revoked: its row closed, its activity ended, its machine told to stop when it is there. */
  lemma LostIsEnded(w: World, t: nat, told: bool, events: seq<Event>) returns (last: World)
    requires Inv(w) && w.d.open && w.d.activity == Pending && events == [EndRow(t, told), End(t, Accepted)]
    ensures Reaches(w, events, last) && last == w.(d := w.d.(open := false, activity := Completed, stops := w.d.stops + if told then 1 else 0), ended := true)
  {
    assert w.enders == map[];
    var w1 := Apply(w, EndRow(t, told));
    last := Apply(w1, End(t, Accepted));
    assert w1.enders - {t} == map[];
    assert events[2..] == [];
    Onward(events, 1, w1, last, last);
    Onward(events, 0, w, w1, last);
    assert events[0..] == events;
  }

  /** A completion that fails is tried again, five times in all, the row and its result as they were; then it is left
      to the sweep, the claim given up. */
  lemma {:induction false} TriedFiveTimes(w: World, t: nat, k: nat, events: seq<Event>) returns (last: World)
    requires w.handlers == map[t := Completing(5)] && w.claimed && w.d.open && k <= 5
    requires |events| == k && forall i :: 0 <= i < k ==> events[i] == Handle(t, Complete(Failed(false)))
    ensures Reaches(w, events, last) && last == if k < 5 then w.(handlers := map[t := Completing(5 - k)]) else w.(handlers := map[], claimed := false)
  {
    last := Tried(w, t, 5, k, events);
  }

  lemma {:induction false} Tried(w: World, t: nat, n: nat, k: nat, events: seq<Event>) returns (last: World)
    requires w.handlers == map[t := Completing(n)] && w.claimed && k <= n && n > 0
    requires |events| == k && forall i :: 0 <= i < k ==> events[i] == Handle(t, Complete(Failed(false)))
    ensures Reaches(w, events, last) && last == if k < n then w.(handlers := map[t := Completing(n - k)]) else w.(handlers := map[], claimed := false)
    decreases k
  {
    if k == 0 {
      last := w;
    } else {
      var r := Apply(w, events[0]);
      if n == 1 {
        assert w.handlers - {t} == map[];
        assert events[1..] == [];
        last := r;
      } else {
        assert r == w.(handlers := map[t := Completing(n - 1)]);
        last := Tried(r, t, n - 1, k - 1, events[1..]);
      }
    }
  }

  /** The end of a row closed as lost or revoked is tried as often. */
  lemma {:induction false} EndTriedFiveTimes(w: World, t: nat, n: nat, k: nat, events: seq<Event>) returns (last: World)
    requires w.enders == map[t := n] && k <= n && 0 < n <= 5
    requires |events| == k && forall i :: 0 <= i < k ==> events[i] == End(t, Failed(false))
    ensures Reaches(w, events, last) && last == w.(enders := if k < n then map[t := n - k] else map[])
    decreases k
  {
    if k == 0 {
      last := w;
    } else {
      var r := Apply(w, events[0]);
      if n == 1 {
        assert w.enders - {t} == map[];
        assert events[1..] == [];
        last := r;
      } else {
        assert r == w.(enders := map[t := n - 1]);
        last := EndTriedFiveTimes(r, t, n - 1, k - 1, events[1..]);
      }
    }
  }

  /** A machine that lists a result of a directive over is told to drop it, and does. */
  lemma ListedIsDropped(w: World, events: seq<Event>) returns (last: World)
    requires w.d.held && !w.d.open && events == [Happens(ListedOver), Happens(TakeAck)]
    ensures Reaches(w, events, last) && last == w.(d := w.d.(held := false, acked := true))
  {
    var w1 := Apply(w, Happens(ListedOver));
    last := Apply(w1, Happens(TakeAck));
    assert events[2..] == [];
    Onward(events, 1, w1, last, last);
    Onward(events, 0, w, w1, last);
    assert events[0..] == events;
  }

  /** A heartbeat of a directive whose activity is over closes its row and stops its machine; of one whose workflow
      asked to stop, stops its machine; of any other, does nothing. A machine told to stop one it ended drops its result. */
  lemma HeartbeatMeans(d: Directive)
    ensures Happened(d, Heartbeat) ==
      if d.activity != Pending then d.(open := false, stops := d.stops + 1) else if d.cancelled then d.(stops := d.stops + 1) else d
    ensures d.stops > 0 ==> Happened(d, TakeStop).stops == d.stops - 1 && (Happened(d, TakeStop).held <==> d.held && !d.finished)
  {
  }

  // --- The gateway's own bookkeeping ---

  /** How many completions the sweep has under way at once. */
  const SLOTS := 8

  /** The directives whose completion is under way, and the sweep's slots taken. */
  class Claims {
    var claimed: set<string>
    var busy: nat

    constructor ()
      ensures claimed == {} && busy == 0
    {
      claimed, busy := {}, 0;
    }

    /** id is claimed after; ok exactly when it was not before. */
    method Claim(id: string) returns (ok: bool)
      modifies this`claimed
      ensures ok <==> id !in old(claimed)
      ensures claimed == old(claimed) + {id}
    {
      ok := id !in claimed;
      claimed := claimed + {id};
    }

    method Release(id: string)
      modifies this`claimed
      ensures claimed == old(claimed) - {id}
    {
      claimed := claimed - {id};
    }

    /** One sweep's completions: each pending directive not under way is started, while slots last; one
        whose stored result cannot be read, or left out by the slots, is let go for the next sweep. */
    method RetryResults(pending: seq<string>, readable: set<string>) returns (started: seq<string>)
      requires busy <= SLOTS
      modifies this
      ensures busy == old(busy) + |started| && busy <= SLOTS
      ensures claimed == old(claimed) + set id | id in started
      ensures forall i :: 0 <= i < |started| ==> started[i] in pending && started[i] in readable && started[i] !in old(claimed)
      ensures forall i, j :: 0 <= i < j < |started| ==> started[i] != started[j]
      ensures busy < SLOTS ==> forall id :: id in pending && id in readable ==> id in claimed
    {
      started := [];
      for i := 0 to |pending|
        invariant busy == old(busy) + |started| && busy <= SLOTS
        invariant claimed == old(claimed) + set id | id in started
        invariant forall k :: 0 <= k < |started| ==> started[k] in pending && started[k] in readable && started[k] !in old(claimed)
        invariant forall k, l :: 0 <= k < l < |started| ==> started[k] != started[l]
        invariant busy < SLOTS ==> forall id :: id in pending[..i] && id in readable ==> id in claimed
      {
        var id := pending[i];
        assert pending[..i + 1] == pending[..i] + [id];
        var ok := Claim(id);
        if !ok {
          assert claimed == old(claimed) + set x | x in started;
          continue; // a connection, or a former sweep, completes it
        }
        if id !in readable {
          Release(id);
          continue;
        }
        if busy == SLOTS {
          Release(id);
          continue;
        }
        busy := busy + 1;
        started := started + [id];
      }
      assert pending[..|pending|] == pending;
    }
  }
}
