/** Background tasks (store/background_task.go, session/tasks.go, activity/task.go): competing writers
    of one end, its one message, the wake it owes, the caps. */
module Tasks {
  import opened Text
  import opened Sets

  datatype State = Running | Done | Failed | Cancelled

  /** The two that write a task's end. */
  datatype Writer = ByTask | BySweep

  datatype Task = Task(
    session: string, participant: string, state: State, endedBy: Option<Writer>,
    message: Option<nat>, cancelledBy: string, followUps: seq<string>, woken: bool)

  /** The message of a task's end: how it ended, who stopped it, the instructions its row held by then. */
  datatype Result = Result(id: nat, state: State, cancelledBy: string, followUps: seq<string>, content: string)

  /** The rows: sessions, tasks by ID, each task's end under its own key. */
  datatype Store = Store(sessions: set<string>, tasks: map<string, Task>, results: map<string, Result>, next: nat)

  datatype Registered = Recorded | TooMany | SessionGone

  datatype Attached = Added | NotFound | Over | Full

  datatype Ending = Ending(gone: bool, mine: bool, message: nat, state: State)

  const GONE := Ending(true, false, 0, Running)

  /** The tasks a participant of a session runs. */
  function RunningOf(st: Store, session: string, participant: string): set<string> {
    set id | id in st.tasks && st.tasks[id].state == Running && st.tasks[id].session == session && st.tasks[id].participant == participant
  }

  /** The rows with id running and the answer, in the order of the checks: there already, too many, no session. */
  function Registers(st: Store, id: string, session: string, participant: string, max: nat): (Store, Registered) {
    if id in st.tasks then (st, Recorded)
    else if |RunningOf(st, session, participant)| >= max then (st, TooMany)
    else if session !in st.sessions then (st, SessionGone)
    else (st.(tasks := st.tasks[id := Task(session, participant, Running, None, None, "", [], false)]), Recorded)
  }

  /** Forgets a task that never started; one ended is kept. */
  function Drops(st: Store, id: string): Store {
    if id in st.tasks && st.tasks[id].state == Running then st.(tasks := st.tasks - {id}) else st
  }

  function Attaches(st: Store, session: string, participant: string, id: string, f: string, max: nat): (Store, Attached) {
    if id !in st.tasks || st.tasks[id].session != session || st.tasks[id].participant != participant then (st, NotFound)
    else if st.tasks[id].state != Running then (st, Over)
    else if |st.tasks[id].followUps| >= max then (st, Full)
    else (st.(tasks := st.tasks[id := st.tasks[id].(followUps := st.tasks[id].followUps + [f])]), Added)
  }

  function Stops(st: Store, id: string, name: string): (Store, Attached) {
    if id !in st.tasks then (st, NotFound)
    else if st.tasks[id].state != Running then (st, Over)
    else (st.(tasks := st.tasks[id := st.tasks[id].(cancelledBy := name)]), Added)
  }

  /** A running task's row and message change together; of one over, the answer tells who ended it, and as what. */
  function Ends(st: Store, id: string, writer: Writer, state: State, content: string): (Store, Ending) {
    if id !in st.tasks then (st, GONE) else
    var t := st.tasks[id];
    if t.state != Running then (st, Ending(false, t.endedBy == Some(writer), if t.message.Some? then t.message.value else 0, t.state)) else
    var cancelledBy := if state == Cancelled then t.cancelledBy else "";
    var result := if id in st.results then st.results[id] else Result(st.next, state, cancelledBy, t.followUps, content);
    (st.(tasks := st.tasks[id := t.(state := state, endedBy := Some(writer), message := Some(result.id), cancelledBy := cancelledBy)],
         results := st.results[id := result], next := st.next + 1),
     Ending(false, true, result.id, state))
  }

  /** The ended tasks whose participant is still to be woken. */
  predicate ToWake(st: Store, id: string) {
    id in st.tasks && (st.tasks[id].state == Done || st.tasks[id].state == Failed) && !st.tasks[id].woken
  }

  function Wakes(st: Store, id: string): Store {
    if id in st.tasks then st.(tasks := st.tasks[id := st.tasks[id].(woken := true)]) else st
  }

  /** The session goes, its tasks and messages with it. */
  function Deletes(st: Store, session: string): Store {
    var gone := set id | id in st.tasks && st.tasks[id].session == session;
    st.(sessions := st.sessions - {session}, tasks := st.tasks - gone, results := st.results - gone)
  }

  // --- What a call of the store gives its caller ---

  /** A task is recorded exactly when it is there after; a retry changes nothing; a new one is counted, and
      leaves its participant at most max; a refusal leaves the rows. */
  lemma RegisterCounts(st: Store, id: string, session: string, participant: string, max: nat)
    ensures var (r, out) := Registers(st, id, session, participant, max);
      && (out == Recorded <==> id in r.tasks)
      && (out == Recorded ==> Registers(r, id, session, participant, max) == (r, Recorded))
      && (id in st.tasks || out != Recorded ==> r == st)
      && (id !in st.tasks && out == Recorded ==>
        RunningOf(r, session, participant) == RunningOf(st, session, participant) + {id} && |RunningOf(r, session, participant)| <= max)
  {
    var r := Registers(st, id, session, participant, max).0;
    if id !in st.tasks && id in r.tasks { assert RunningOf(r, session, participant) == RunningOf(st, session, participant) + {id}; }
  }

  /** Dropping undoes a registration, and nothing else: an ended task and every other one are kept. */
  lemma DropUndoes(st: Store, id: string, session: string, participant: string, max: nat, writer: Writer, state: State, content: string)
    requires id !in st.tasks && Registers(st, id, session, participant, max).1 == Recorded && state != Running
    ensures var r := Registers(st, id, session, participant, max).0;
      Drops(r, id) == st && Drops(Ends(r, id, writer, state, content).0, id) == Ends(r, id, writer, state, content).0
  {
    assert Registers(st, id, session, participant, max).0.tasks - {id} == st.tasks;
  }

  /** A task is recorded when it is there already, or its session is and its participant runs fewer than max; each
      refusal says which of the two fails; what is recorded is a task running, of that session and participant. */
  lemma RegisteredWhen(st: Store, id: string, session: string, participant: string, max: nat)
    ensures var (r, out) := Registers(st, id, session, participant, max);
      var running := set x | x in st.tasks && st.tasks[x].state == Running && st.tasks[x].session == session && st.tasks[x].participant == participant;
      && (out == Recorded <==> id in st.tasks || (|running| < max && session in st.sessions))
      && (out == TooMany <==> id !in st.tasks && |running| >= max) && (out == SessionGone <==> id !in st.tasks && |running| < max && session !in st.sessions)
      && (out == Recorded && id !in st.tasks ==> r == st.(tasks := st.tasks[id := Task(session, participant, Running, None, None, "", [], false)]))
  {
    assert RunningOf(st, session, participant)
        == set x | x in st.tasks && st.tasks[x].state == Running && st.tasks[x].session == session && st.tasks[x].participant == participant;
  }

  /** An instruction is attached, after those attached before, exactly to a running task of that participant's holding
      fewer than max; each refusal says which of these fails, and changes nothing. */
  lemma AttachedWhen(st: Store, session: string, participant: string, id: string, f: string, max: nat)
    ensures var (r, out) := Attaches(st, session, participant, id, f, max);
      var its := id in st.tasks && st.tasks[id].session == session && st.tasks[id].participant == participant;
      && (out == NotFound <==> !its) && (out == Over <==> its && st.tasks[id].state != Running)
      && (out == Full <==> its && st.tasks[id].state == Running && |st.tasks[id].followUps| >= max) && (out != Added ==> r == st)
      && (out == Added ==> id in r.tasks && r.tasks[id].followUps == st.tasks[id].followUps + [f])
      && (out == Added ==> r == st.(tasks := st.tasks[id := st.tasks[id].(followUps := r.tasks[id].followUps)]))
  {
  }

  /** The member who stops a task is named on it exactly while it runs, the last one to. */
  lemma StoppedWhen(st: Store, id: string, name: string)
    ensures var (r, out) := Stops(st, id, name);
      && (out == NotFound <==> id !in st.tasks) && (out == Over <==> id in st.tasks && st.tasks[id].state != Running) && out != Full
      && (out != Added ==> r == st)
      && (out == Added ==> id in r.tasks && r.tasks[id].cancelledBy == name && r == st.(tasks := st.tasks[id := st.tasks[id].(cancelledBy := name)]))
  {
  }

  /** What the end of a running task writes: the state and the content asked for, the instructions attached to it,
      the member who stopped it exactly when it ends cancelled; the end is the caller's. */
  lemma EndWrites(st: Store, id: string, writer: Writer, state: State, content: string)
    requires id in st.tasks && st.tasks[id].state == Running && id !in st.results
    ensures var (r, out) := Ends(st, id, writer, state, content);
      && out == Ending(false, true, st.next, state) && id in r.tasks && id in r.results && r.next == st.next + 1
      && r.results[id].id == st.next && r.results[id].state == state && r.results[id].content == content
      && r.results[id].followUps == st.tasks[id].followUps
      && r.results[id].cancelledBy == (if state == Cancelled then st.tasks[id].cancelledBy else "")
      && r.tasks[id].state == state && r.tasks[id].endedBy == Some(writer) && r.tasks[id].message == Some(st.next)
      && r.tasks[id].cancelledBy == r.results[id].cancelledBy && r.tasks[id].followUps == st.tasks[id].followUps && r.tasks[id].woken == st.tasks[id].woken
      && r.tasks[id].session == st.tasks[id].session && r.tasks[id].participant == st.tasks[id].participant
      && r.tasks - {id} == st.tasks - {id} && r.results - {id} == st.results - {id} && r.sessions == st.sessions
  {
  }

  /** The end of a task over, or of none, writes nothing; it is told whose end stands, and its message. */
  lemma EndedAlready(st: Store, id: string, writer: Writer, state: State, content: string)
    requires id !in st.tasks || st.tasks[id].state != Running
    ensures var (r, out) := Ends(st, id, writer, state, content);
      && r == st && (out.gone <==> id !in st.tasks) && (out.gone ==> !out.mine)
      && (id in st.tasks ==> (out.mine <==> st.tasks[id].endedBy == Some(writer)) && out.state == st.tasks[id].state)
      && (id in st.tasks && st.tasks[id].message.Some? ==> out.message == st.tasks[id].message.value)
  {
  }

  /** A session takes its tasks with it, and their messages, and nothing else. */
  lemma DeleteTakes(st: Store, session: string, id: string)
    ensures var r := Deletes(st, session);
      && r.sessions == st.sessions - {session} && r.next == st.next
      && (id in r.tasks <==> id in st.tasks && st.tasks[id].session != session) && (id in r.tasks ==> r.tasks[id] == st.tasks[id])
      && (id in r.results <==> id in st.results && !(id in st.tasks && st.tasks[id].session == session)) && (id in r.results ==> r.results[id] == st.results[id])
  {
  }

  /** A wake recorded takes that task off the wake list, and no other. */
  lemma WokenLeavesTheList(st: Store, id: string, other: string)
    ensures ToWake(Wakes(st, id), other) <==> ToWake(st, other) && other != id
  {
  }

  // --- Any run ---

  /** A waker of a task's participant, past its wake once delivered or given up with an end of the turn. */
  datatype Waker = Waker(id: string, done: bool)

  datatype Event =
    | Open(session: string)
    | Register(id: string, session: string, participant: string)
    | Drop(id: string)
    | Attach(session: string, participant: string, id: string, f: string)
    | Stop(id: string, name: string)
    | End(id: string, state: State, content: string, t: nat)
    | ListRunning(k: nat)
    | Sweep(k: nat, id: string, content: string, t: nat)
    | List(id: string, t: nat)
    | Deliver(t: nat)
    | GiveUp(t: nat)
    | Woken(t: nat)
    | Die(t: nat)
    | Delete(session: string)

  /** The store, and what happened: the instructions attached to each task since it was recorded, who
      was told an end is theirs, the sweeps' lists of the tasks running, and whether a member had stopped
      each, the wakers, the wakes delivered and given up, the sessions ever opened, and the session each
      task ID is of: a task's ID begins with its session's. */
  datatype World = World(
    st: Store, attached: map<string, seq<string>>, told: set<(string, Writer)>, lists: map<nat, map<string, bool>>,
    wakers: map<nat, Waker>, delivered: set<string>, givenUp: set<string>, used: set<string>, home: map<string, string>)

  predicate Enabled(w: World, e: Event) {
    match e
    case Open(session) => session !in w.used
    case Register(id, session, _) => id in w.home ==> w.home[id] == session
    case End(_, state, _, t) => state != Running && t !in w.wakers
    case Sweep(k, id, _, t) => k in w.lists && id in w.lists[k] && t !in w.wakers
    case List(id, t) => ToWake(w.st, id) && t !in w.wakers
    case Deliver(t) => t in w.wakers && w.wakers[t].id in w.st.tasks
    case GiveUp(t) => t in w.wakers && w.wakers[t].id in w.st.tasks
    case Woken(t) => t in w.wakers && w.wakers[t].done
    case _ => true
  }

  predicate IsEnd(e: Event) { e.End? || e.Sweep? }

  function EndWriter(e: Event): Writer { if e.End? then ByTask else BySweep }

  /** The state an end asks for: the workflow's own, or as the sweep's list says. */
  function Asked(w: World, e: Event): State
    requires IsEnd(e) && Enabled(w, e)
  {
    match e
    case End(_, state, _, _) => state
    case Sweep(k, id, _, _) => if w.lists[k][id] then Cancelled else Failed
  }

  /** A writer told the end is its own wakes the participant, unless the task is cancelled: as the row says
      for the task's workflow, as it asked for the sweep. */
  predicate WakesAfter(e: Event, asked: State, out: Ending)
    requires IsEnd(e)
  {
    out.mine && (if e.End? then out.state else asked) != Cancelled
  }

  function Ended(w: World, e: Event): World
    requires IsEnd(e) && Enabled(w, e)
  {
    var (st, out) := Ends(w.st, e.id, EndWriter(e), Asked(w, e), e.content);
    w.(st := st, told := if out.mine then w.told + {(e.id, EndWriter(e))} else w.told,
       wakers := if WakesAfter(e, Asked(w, e), out) then w.wakers[e.t := Waker(e.id, false)] else w.wakers)
  }

  function Listed(st: Store): map<string, bool> {
    map id | id in st.tasks && st.tasks[id].state == Running :: st.tasks[id].cancelledBy != ""
  }

  function Apply(w: World, e: Event, max: nat, cap: nat): World
    requires Enabled(w, e)
  {
    match e
    case Open(session) => w.(st := w.st.(sessions := w.st.sessions + {session}), used := w.used + {session})
    case Register(id, session, participant) =>
      var (st, out) := Registers(w.st, id, session, participant, max);
      if id in w.st.tasks || out != Recorded then w else w.(st := st, attached := w.attached[id := []], home := w.home[id := session])
    case Drop(id) => w.(st := Drops(w.st, id))
    case Attach(session, participant, id, f) =>
      var (st, out) := Attaches(w.st, session, participant, id, f, cap);
      w.(st := st, attached := if out == Added && id in w.attached then w.attached[id := w.attached[id] + [f]] else w.attached)
    case Stop(id, name) => w.(st := Stops(w.st, id, name).0)
    case End(_, _, _, _) => Ended(w, e)
    case ListRunning(k) => w.(lists := w.lists[k := Listed(w.st)])
    case Sweep(_, _, _, _) => Ended(w, e)
    case List(id, t) => w.(wakers := w.wakers[t := Waker(id, false)])
    case Deliver(t) => w.(delivered := w.delivered + {w.wakers[t].id}, wakers := w.wakers[t := w.wakers[t].(done := true)])
    case GiveUp(t) => w.(givenUp := w.givenUp + {w.wakers[t].id}, wakers := w.wakers[t := w.wakers[t].(done := true)])
    case Woken(t) => w.(st := Wakes(w.st, w.wakers[t].id), wakers := w.wakers - {t})
    case Die(t) => w.(wakers := w.wakers - {t})
    case Delete(session) => w.(st := Deletes(w.st, session))
  }

  ghost predicate Reaches(w: World, events: seq<Event>, last: World, max: nat, cap: nat)
    decreases |events|
  {
    if events == [] then w == last
    else Enabled(w, events[0]) && Reaches(Apply(w, events[0], max, cap), events[1..], last, max, cap)
  }

  const EMPTY := World(Store({}, map[], map[], 1), map[], {}, map[], map[], {}, {}, {}, map[])

  // --- What every run keeps ---

  /** A message is the task's as it ended, with the instructions attached to it. */
  predicate ResultOf(t: Task, r: Result) {
    t.message == Some(r.id) && r.state == t.state && r.followUps == t.followUps && r.cancelledBy == t.cancelledBy
  }

  /** A task's row, its message, and what happened to it say the same. */
  predicate TaskOk(w: World, id: string, t: Task) {
    && t.session in w.st.sessions && id in w.home && w.home[id] == t.session
    && id in w.attached && t.followUps == w.attached[id]
    && (if t.state == Running then id !in w.st.results && t.endedBy == None && t.message == None
        else id in w.st.results && ResultOf(t, w.st.results[id]) && t.endedBy.Some? && (t.state == Cancelled || t.cancelledBy == ""))
    && (forall writer :: (id, writer) in w.told ==> t.endedBy == Some(writer))
  }

  /** A task that is no more, having ended: its session is gone for good. */
  predicate OverOk(w: World, id: string) { id in w.home && w.home[id] in w.used && w.home[id] !in w.st.sessions }

  ghost predicate TasksOk(w: World) { forall id :: id in w.st.tasks ==> TaskOk(w, id, w.st.tasks[id]) }

  ghost predicate ToldOk(w: World) {
    && (forall id, writer :: (id, writer) in w.told ==> id in w.st.tasks || OverOk(w, id))
    && (forall id, a, b :: (id, a) in w.told && (id, b) in w.told ==> a == b)
  }

  /** Each message is one task's, of an ID of its own. */
  ghost predicate ResultsOk(w: World) {
    && (forall id :: id in w.st.results ==> id in w.st.tasks && w.st.results[id].id < w.st.next)
    && (forall i, j :: i in w.st.results && j in w.st.results && w.st.results[i].id == w.st.results[j].id ==> i == j)
  }

  ghost predicate CapsOk(w: World, max: nat) {
    forall session, participant :: |RunningOf(w.st, session, participant)| <= max
  }

  ghost predicate Inv(w: World, max: nat) {
    w.st.sessions <= w.used && TasksOk(w) && ToldOk(w) && ResultsOk(w) && CapsOk(w, max)
  }

  /** What runs after a step ran before it, but a task it registers. */
  lemma RanBefore(w: World, e: Event, max: nat, cap: nat, id: string, r: World)
    requires Enabled(w, e) && r == Apply(w, e, max, cap) && !e.Register? && id in r.st.tasks && r.st.tasks[id].state == Running
    ensures id in w.st.tasks && w.st.tasks[id].state == Running
    ensures w.st.tasks[id].session == r.st.tasks[id].session && w.st.tasks[id].participant == r.st.tasks[id].participant
  {
  }

  lemma RegisterCaps(w: World, e: Event, max: nat, cap: nat, session: string, participant: string)
    requires e.Register? && Enabled(w, e) && |RunningOf(w.st, session, participant)| <= max
    ensures |RunningOf(Apply(w, e, max, cap).st, session, participant)| <= max
  {
    var before, after := RunningOf(w.st, session, participant), RunningOf(Apply(w, e, max, cap).st, session, participant);
    if after != before { assert after == before + {e.id}; }
  }

  /** Only a registration adds to what a participant runs, and it is refused at max. */
  lemma CapKept(w: World, e: Event, max: nat, cap: nat, session: string, participant: string)
    requires Enabled(w, e) && |RunningOf(w.st, session, participant)| <= max
    ensures |RunningOf(Apply(w, e, max, cap).st, session, participant)| <= max
  {
    if e.Register? {
      RegisterCaps(w, e, max, cap, session, participant);
    } else {
      var r := Apply(w, e, max, cap);
      forall id | id in RunningOf(r.st, session, participant) ensures id in RunningOf(w.st, session, participant) { RanBefore(w, e, max, cap, id, r); }
      Fewer(RunningOf(r.st, session, participant), RunningOf(w.st, session, participant));
    }
  }

  /** What a step makes of a task it is not about: nothing, but a wake. */
  lemma OtherSame(w: World, e: Event, max: nat, cap: nat, id: string, r: World)
    requires Enabled(w, e) && r == Apply(w, e, max, cap) && id in w.st.tasks && id in r.st.tasks
    requires (e.Register? || e.Attach? || e.Stop? || IsEnd(e)) ==> e.id != id
    ensures r.st.tasks[id].(woken := w.st.tasks[id].woken) == w.st.tasks[id]
    ensures w.st.tasks[id].session in w.st.sessions ==> w.st.tasks[id].session in r.st.sessions
  {
  }

  lemma OtherMessage(w: World, e: Event, max: nat, cap: nat, id: string, r: World)
    requires Enabled(w, e) && r == Apply(w, e, max, cap) && id in w.st.tasks && id in r.st.tasks && (IsEnd(e) ==> e.id != id)
    ensures (id in w.st.results <==> id in r.st.results) && (id in w.st.results ==> r.st.results[id] == w.st.results[id])
  {
  }

  lemma OtherTold(w: World, e: Event, max: nat, cap: nat, id: string, r: World)
    requires Enabled(w, e) && r == Apply(w, e, max, cap) && (e.Register? || e.Attach? || IsEnd(e) ==> e.id != id)
    ensures forall writer :: (id, writer) in r.told <==> (id, writer) in w.told
    ensures id in w.home ==> id in r.home && r.home[id] == w.home[id]
    ensures id in w.attached ==> id in r.attached && r.attached[id] == w.attached[id]
  {
  }

  lemma OtherKept(w: World, e: Event, max: nat, cap: nat, id: string, r: World)
    requires Enabled(w, e) && r == Apply(w, e, max, cap) && id in w.st.tasks && id in r.st.tasks && TaskOk(w, id, w.st.tasks[id])
    requires (e.Register? || e.Attach? || e.Stop? || IsEnd(e)) ==> e.id != id
    ensures TaskOk(r, id, r.st.tasks[id])
  {
    OtherSame(w, e, max, cap, id, r);
    OtherMessage(w, e, max, cap, id, r);
    OtherTold(w, e, max, cap, id, r);
  }

  lemma AttachKept(w: World, e: Event, max: nat, cap: nat, r: World)
    requires e.Attach? && r == Apply(w, e, max, cap) && e.id in w.st.tasks && TaskOk(w, e.id, w.st.tasks[e.id])
    ensures e.id in r.st.tasks && TaskOk(r, e.id, r.st.tasks[e.id])
  {
  }

  lemma EndKept(w: World, e: Event, r: World)
    requires IsEnd(e) && Enabled(w, e) && r == Ended(w, e) && e.id in w.st.tasks && TaskOk(w, e.id, w.st.tasks[e.id])
    ensures e.id in r.st.tasks && TaskOk(r, e.id, r.st.tasks[e.id])
  {
  }

  /** Of an ID that is no task's, nothing is kept but what is over for good. */
  ghost predicate Unknown(w: World, id: string) {
    id !in w.st.results && (OverOk(w, id) || forall writer :: (id, writer) !in w.told)
  }

  lemma NoTrace(w: World, max: nat, id: string)
    requires Inv(w, max) && id !in w.st.tasks
    ensures Unknown(w, id)
  {
  }

  lemma RegisterKept(w: World, e: Event, max: nat, cap: nat, r: World)
    requires e.Register? && Enabled(w, e) && r == Apply(w, e, max, cap) && e.id in r.st.tasks
    requires if e.id in w.st.tasks then TaskOk(w, e.id, w.st.tasks[e.id]) else Unknown(w, e.id)
    ensures TaskOk(r, e.id, r.st.tasks[e.id])
  {
  }

  lemma TaskKept(w: World, e: Event, max: nat, cap: nat, id: string, r: World)
    requires Enabled(w, e) && r == Apply(w, e, max, cap) && id in r.st.tasks
    requires if id in w.st.tasks then TaskOk(w, id, w.st.tasks[id]) else Unknown(w, id)
    ensures TaskOk(r, id, r.st.tasks[id])
  {
    if e.Register? && e.id == id { RegisterKept(w, e, max, cap, r); }
    else if e.Attach? && e.id == id { AttachKept(w, e, max, cap, r); }
    else if IsEnd(e) && e.id == id { EndKept(w, e, r); }
    else if !(e.Stop? && e.id == id) { OtherKept(w, e, max, cap, id, r); }
  }

  /** A task is no more when it never ended, or with its session. */
  lemma TaskStays(w: World, e: Event, max: nat, cap: nat, id: string, r: World)
    requires Enabled(w, e) && r == Apply(w, e, max, cap) && w.st.sessions <= w.used
    requires if id in w.st.tasks then TaskOk(w, id, w.st.tasks[id]) && w.st.tasks[id].state != Running else OverOk(w, id)
    ensures if id in r.st.tasks then id in w.st.tasks && r.st.tasks[id].(woken := w.st.tasks[id].woken) == w.st.tasks[id] else OverOk(r, id)
  {
  }

  lemma ToldIs(w: World, e: Event, max: nat, cap: nat, r: World, id: string, writer: Writer)
    requires Enabled(w, e) && r == Apply(w, e, max, cap) && (id, writer) in r.told && (id, writer) !in w.told
    requires id in w.st.tasks ==> TaskOk(w, id, w.st.tasks[id])
    ensures id in w.st.tasks && id in r.st.tasks && r.st.tasks[id].endedBy == Some(writer)
    ensures w.st.tasks[id].state == Running || w.st.tasks[id].endedBy == Some(writer)
  {
  }

  lemma ToldKept(w: World, e: Event, max: nat, cap: nat, r: World, id: string, writer: Writer)
    requires Inv(w, max) && Enabled(w, e) && r == Apply(w, e, max, cap) && (id, writer) in r.told
    ensures id in r.st.tasks || OverOk(r, id)
  {
    if (id, writer) !in w.told {
      ToldIs(w, e, max, cap, r, id, writer);
    } else {
      if id in w.st.tasks { assert TaskOk(w, id, w.st.tasks[id]); }
      TaskStays(w, e, max, cap, id, r);
    }
  }

  lemma OneTold(w: World, e: Event, max: nat, cap: nat, r: World, id: string, a: Writer, b: Writer)
    requires Inv(w, max) && Enabled(w, e) && r == Apply(w, e, max, cap) && (id, a) in r.told && (id, b) in r.told
    ensures a == b
  {
    if id in w.st.tasks { assert TaskOk(w, id, w.st.tasks[id]); }
    if (id, a) !in w.told { ToldIs(w, e, max, cap, r, id, a); }
    if (id, b) !in w.told { ToldIs(w, e, max, cap, r, id, b); }
  }

  /** A message stays; one written now is new, of the task that ends. */
  lemma ResultKept(w: World, e: Event, max: nat, cap: nat, r: World, id: string)
    requires Enabled(w, e) && r == Apply(w, e, max, cap) && id in r.st.results
    requires id in w.st.results ==> id in w.st.tasks && TaskOk(w, id, w.st.tasks[id])
    ensures id in w.st.results ==> r.st.results[id] == w.st.results[id] && id in r.st.tasks
    ensures id !in w.st.results ==> id in r.st.tasks && IsEnd(e) && id == e.id && r.st.results[id].id == w.st.next && r.st.next == w.st.next + 1
    ensures r.st.next >= w.st.next
  {
  }

  lemma ResultsKept(w: World, e: Event, max: nat, cap: nat, r: World)
    requires TasksOk(w) && ResultsOk(w) && Enabled(w, e) && r == Apply(w, e, max, cap)
    ensures ResultsOk(r)
  {
    forall id | id in r.st.results
      ensures id in w.st.results ==> r.st.results[id] == w.st.results[id]
      ensures id !in w.st.results ==> IsEnd(e) && id == e.id && r.st.results[id].id == w.st.next
      ensures id in r.st.tasks && r.st.results[id].id < r.st.next
    {
      ResultKept(w, e, max, cap, r, id);
    }
  }

  lemma UsedKept(w: World, e: Event, max: nat, cap: nat, r: World)
    requires w.st.sessions <= w.used && Enabled(w, e) && r == Apply(w, e, max, cap)
    ensures r.st.sessions <= r.used
  {
  }

  /** Every step keeps what the rows, their messages and their writers say. */
  lemma StepKeeps(w: World, e: Event, max: nat, cap: nat)
    requires Inv(w, max) && Enabled(w, e)
    ensures Inv(Apply(w, e, max, cap), max)
  {
    var r := Apply(w, e, max, cap);
    forall id | id in r.st.tasks ensures TaskOk(r, id, r.st.tasks[id]) {
      if id !in w.st.tasks { NoTrace(w, max, id); }
      TaskKept(w, e, max, cap, id, r);
    }
    forall id, writer | (id, writer) in r.told ensures id in r.st.tasks || OverOk(r, id) { ToldKept(w, e, max, cap, r, id, writer); }
    forall id, a, b | (id, a) in r.told && (id, b) in r.told ensures a == b { OneTold(w, e, max, cap, r, id, a, b); }
    ResultsKept(w, e, max, cap, r);
    forall session, participant ensures |RunningOf(r.st, session, participant)| <= max { CapKept(w, e, max, cap, session, participant); }
    UsedKept(w, e, max, cap, r);
  }

  lemma {:induction false} RunKeeps(w: World, events: seq<Event>, last: World, max: nat, cap: nat)
    requires Inv(w, max) && Reaches(w, events, last, max, cap)
    ensures Inv(last, max)
    decreases |events|
  {
    if events != [] {
      StepKeeps(w, events[0], max, cap);
      RunKeeps(Apply(w, events[0], max, cap), events[1..], last, max, cap);
    }
  }

  lemma EmptyOk(max: nat)
    ensures Inv(EMPTY, max)
  {
    forall session, participant ensures RunningOf(EMPTY.st, session, participant) == {} {}
  }

  /** In every run, whatever the retries of its workflow, the sweeps and the stops: a task ended has one
      message, and no other task's; it holds exactly the instructions whose attachment succeeded; one
      writer alone was told the end is its own. */
  lemma OneEnd(events: seq<Event>, last: World, max: nat, cap: nat, id: string)
    requires Reaches(EMPTY, events, last, max, cap) && id in last.st.tasks
    ensures last.st.tasks[id].state == Running <==> id !in last.st.results
    ensures last.st.tasks[id].state != Running ==>
      id in last.attached && ResultOf(last.st.tasks[id], last.st.results[id]) && last.st.results[id].followUps == last.attached[id]
    ensures forall other :: other in last.st.results && id in last.st.results && last.st.results[other].id == last.st.results[id].id ==> other == id
    ensures forall a, b :: (id, a) in last.told && (id, b) in last.told ==> a == b && last.st.tasks[id].endedBy == Some(a)
  {
    EmptyOk(max);
    RunKeeps(EMPTY, events, last, max, cap);
    assert TaskOk(last, id, last.st.tasks[id]);
  }

  /** In every run, whatever is retried and dropped: a participant never runs more than max tasks. */
  lemma CapHolds(events: seq<Event>, last: World, max: nat, cap: nat, session: string, participant: string)
    requires Reaches(EMPTY, events, last, max, cap)
    ensures |RunningOf(last.st, session, participant)| <= max
  {
    EmptyOk(max);
    RunKeeps(EMPTY, events, last, max, cap);
  }

  lemma MessageStays(w: World, e: Event, max: nat, cap: nat, id: string, r: World)
    requires Enabled(w, e) && r == Apply(w, e, max, cap) && id in w.st.results && id in r.st.tasks
    requires id in w.st.tasks && w.st.tasks[id].state != Running && TaskOk(w, id, w.st.tasks[id])
    ensures id in r.st.results && r.st.results[id] == w.st.results[id]
  {
  }

  /** In every run: who ended a task, how, and its message never change while its session is there. */
  lemma EndIsFinal(first: seq<Event>, w: World, events: seq<Event>, last: World, max: nat, cap: nat, id: string)
    requires Reaches(EMPTY, first, w, max, cap) && Reaches(w, events, last, max, cap) && id in w.st.tasks && w.st.tasks[id].state != Running
    ensures id in w.st.results
    ensures id in last.st.tasks ==>
      id in last.st.results && last.st.results[id] == w.st.results[id] && last.st.tasks[id].(woken := w.st.tasks[id].woken) == w.st.tasks[id]
    ensures id !in last.st.tasks ==> OverOk(last, id)
  {
    EmptyOk(max);
    RunKeeps(EMPTY, first, w, max, cap);
    EndStays(w, events, last, max, cap, id);
  }

  lemma {:induction false} EndStays(w: World, events: seq<Event>, last: World, max: nat, cap: nat, id: string)
    requires Inv(w, max) && Reaches(w, events, last, max, cap) && id in w.st.tasks && w.st.tasks[id].state != Running
    ensures id in w.st.results
    ensures id in last.st.tasks ==>
      id in last.st.results && last.st.results[id] == w.st.results[id] && last.st.tasks[id].(woken := w.st.tasks[id].woken) == w.st.tasks[id]
    ensures id !in last.st.tasks ==> OverOk(last, id)
    decreases |events|
  {
    assert TaskOk(w, id, w.st.tasks[id]);
    if events != [] {
      var r := Apply(w, events[0], max, cap);
      StepKeeps(w, events[0], max, cap);
      TaskStays(w, events[0], max, cap, id, r);
      if id in r.st.tasks {
        MessageStays(w, events[0], max, cap, id, r);
        EndStays(r, events[1..], last, max, cap, id);
      } else {
        GoneIsFinal(r, events[1..], last, max, cap, id);
      }
    }
  }

  lemma {:induction false} GoneIsFinal(w: World, events: seq<Event>, last: World, max: nat, cap: nat, id: string)
    requires Inv(w, max) && Reaches(w, events, last, max, cap) && id !in w.st.tasks && OverOk(w, id)
    ensures id !in last.st.tasks && OverOk(last, id)
    decreases |events|
  {
    if events != [] {
      StepKeeps(w, events[0], max, cap);
      TaskStays(w, events[0], max, cap, id, Apply(w, events[0], max, cap));
      GoneIsFinal(Apply(w, events[0], max, cap), events[1..], last, max, cap, id);
    }
  }

  // --- What an end wrote ---

  /** The row and the message of a task as the event e ended it in w. */
  predicate WrittenBy(w: World, e: Event, last: World)
    requires IsEnd(e) && Enabled(w, e)
  {
    && e.id in w.st.tasks && w.st.tasks[e.id].state == Running && e.id in last.st.tasks && e.id in last.st.results
    && last.st.results[e.id].content == e.content && last.st.results[e.id].state == Asked(w, e) && last.st.tasks[e.id].state == Asked(w, e)
    && last.st.tasks[e.id].endedBy == Some(EndWriter(e)) && last.st.results[e.id].followUps == w.st.tasks[e.id].followUps
    && last.st.results[e.id].cancelledBy == (if Asked(w, e) == Cancelled then w.st.tasks[e.id].cancelledBy else "")
  }

  /** Over every run: what ends a running task is what its one message says from then on, the writer told so: the
      content and the state asked for, the instructions attached by then, and who had stopped it if it is cancelled. */
  lemma EndIsWritten(first: seq<Event>, w: World, e: Event, events: seq<Event>, last: World, max: nat, cap: nat)
    requires Reaches(EMPTY, first, w, max, cap) && IsEnd(e) && Enabled(w, e) && e.id in w.st.tasks && w.st.tasks[e.id].state == Running
    requires Reaches(Apply(w, e, max, cap), events, last, max, cap) && e.id in last.st.tasks
    ensures WrittenBy(w, e, last) && (e.id, EndWriter(e)) in Apply(w, e, max, cap).told
  {
    EmptyOk(max);
    RunKeeps(EMPTY, first, w, max, cap);
    assert TaskOk(w, e.id, w.st.tasks[e.id]);
    EndWrites(w.st, e.id, EndWriter(e), Asked(w, e), e.content);
    StepKeeps(w, e, max, cap);
    EndStays(Apply(w, e, max, cap), events, last, max, cap, e.id);
  }

  predicate IsOver(w: World, id: string) { id in w.st.tasks && w.st.tasks[id].state != Running }

  lemma OnlyEndsEnd(w: World, e: Event, max: nat, cap: nat, id: string)
    requires Enabled(w, e) && !IsOver(w, id) && IsOver(Apply(w, e, max, cap), id)
    ensures IsEnd(e) && e.id == id && id in w.st.tasks
  {
  }

  lemma {:induction false} EndedAt(w: World, events: seq<Event>, last: World, max: nat, cap: nat, id: string) returns (k: nat, mid: World)
    requires Inv(w, max) && Reaches(w, events, last, max, cap) && !IsOver(w, id) && IsOver(last, id)
    ensures k < |events| && Reaches(w, events[..k], mid, max, cap) && Enabled(mid, events[k])
    ensures IsEnd(events[k]) && events[k].id == id && id in mid.st.tasks && mid.st.tasks[id].state == Running
    ensures Reaches(Apply(mid, events[k], max, cap), events[k + 1..], last, max, cap)
    decreases |events|
  {
    var r := Apply(w, events[0], max, cap);
    StepKeeps(w, events[0], max, cap);
    if IsOver(r, id) {
      OnlyEndsEnd(w, events[0], max, cap, id);
      k, mid := 0, w;
    } else {
      var j, m := EndedAt(r, events[1..], last, max, cap, id);
      k, mid := j + 1, m;
      assert events[..k][1..] == events[1..][..j] && events[k + 1..] == events[1..][j + 1..];
    }
  }

  /** And every task over was ended so: some writer's end is all its row and its message say. */
  lemma OverWasEnded(events: seq<Event>, last: World, max: nat, cap: nat, id: string) returns (k: nat, w: World)
    requires Reaches(EMPTY, events, last, max, cap) && id in last.st.tasks && last.st.tasks[id].state != Running
    ensures k < |events| && IsEnd(events[k]) && events[k].id == id && Reaches(EMPTY, events[..k], w, max, cap) && Enabled(w, events[k])
    ensures WrittenBy(w, events[k], last)
  {
    EmptyOk(max);
    k, w := EndedAt(EMPTY, events, last, max, cap, id);
    EndIsWritten(events[..k], w, events[k], events[k + 1..], last, max, cap);
  }

  // --- The wakes ---

  /** A step that wakes nobody for a cancelled task: not the sweep's end, as failed, of a task an
      overlapping sweep ended as cancelled. */
  predicate Harmless(w: World, e: Event)
    requires Enabled(w, e)
  {
    !(e.Sweep? && Asked(w, e) != Cancelled && CancelledBySweep(w, e.id))
  }

  predicate CancelledBySweep(w: World, id: string) {
    id in w.st.tasks && w.st.tasks[id].state == Cancelled && w.st.tasks[id].endedBy == Some(BySweep)
  }

  /** Only a task done or failed is woken for, and it is off the list only when its wake is done with. */
  predicate WakeOk(w: World, id: string, t: Task) {
    && (t.state == Running || t.state == Cancelled ==> !t.woken && id !in w.delivered && id !in w.givenUp)
    && (t.woken ==> id in w.delivered || id in w.givenUp)
  }

  predicate WakerOk(w: World, k: Waker) {
    && (if k.id in w.st.tasks then w.st.tasks[k.id].state == Done || w.st.tasks[k.id].state == Failed else OverOk(w, k.id))
    && (k.done ==> k.id in w.delivered || k.id in w.givenUp)
  }

  ghost predicate WakesOk(w: World) {
    && (forall id :: id in w.st.tasks ==> WakeOk(w, id, w.st.tasks[id]))
    && (forall t :: t in w.wakers ==> WakerOk(w, w.wakers[t]))
    && (forall id :: id in w.delivered || id in w.givenUp ==> id in w.st.tasks || OverOk(w, id))
  }

  lemma WakeStays(w: World, e: Event, max: nat, cap: nat, id: string, r: World)
    requires Enabled(w, e) && r == Apply(w, e, max, cap) && id in r.st.tasks
    requires if id in w.st.tasks then TaskOk(w, id, w.st.tasks[id]) && WakeOk(w, id, w.st.tasks[id]) else OverOk(w, id) || (id !in w.delivered && id !in w.givenUp)
    requires e.Deliver? || e.GiveUp? || e.Woken? ==> WakerOk(w, w.wakers[e.t])
    ensures WakeOk(r, id, r.st.tasks[id])
  {
  }

  lemma WakerGoesOn(w: World, e: Event, max: nat, cap: nat, t: nat, r: World)
    requires Enabled(w, e) && r == Apply(w, e, max, cap) && t in w.wakers && t in r.wakers
    ensures r.wakers[t].id == w.wakers[t].id && w.delivered <= r.delivered && w.givenUp <= r.givenUp
    ensures r.wakers[t].done ==> w.wakers[t].done || r.wakers[t].id in r.delivered || r.wakers[t].id in r.givenUp
  {
  }

  lemma WakersKept(w: World, e: Event, max: nat, cap: nat, t: nat, r: World)
    requires Inv(w, max) && WakesOk(w) && Enabled(w, e) && Harmless(w, e) && r == Apply(w, e, max, cap) && t in r.wakers
    ensures WakerOk(r, r.wakers[t])
  {
    if t in w.wakers {
      assert WakerOk(w, w.wakers[t]);
      var id := w.wakers[t].id;
      if id in w.st.tasks { assert TaskOk(w, id, w.st.tasks[id]); }
      TaskStays(w, e, max, cap, id, r);
      WakerGoesOn(w, e, max, cap, t, r);
    } else {
      NewWaker(w, e, max, cap, t, r);
    }
  }

  lemma NewWaker(w: World, e: Event, max: nat, cap: nat, t: nat, r: World)
    requires Enabled(w, e) && Harmless(w, e) && r == Apply(w, e, max, cap) && t in r.wakers && t !in w.wakers
    ensures WakerOk(r, r.wakers[t])
  {
    assert IsEnd(e) || e.List?;
  }

  lemma WokenKept(w: World, e: Event, max: nat, cap: nat, id: string, r: World)
    requires Inv(w, max) && WakesOk(w) && Enabled(w, e) && r == Apply(w, e, max, cap) && (id in r.delivered || id in r.givenUp)
    ensures id in r.st.tasks || OverOk(r, id)
  {
    if id in w.delivered || id in w.givenUp {
      if id in w.st.tasks { assert TaskOk(w, id, w.st.tasks[id]) && WakeOk(w, id, w.st.tasks[id]); }
      TaskStays(w, e, max, cap, id, r);
    }
  }

  lemma WakesStay(w: World, e: Event, max: nat, cap: nat)
    requires Inv(w, max) && WakesOk(w) && Enabled(w, e) && Harmless(w, e)
    ensures WakesOk(Apply(w, e, max, cap))
  {
    var r := Apply(w, e, max, cap);
    forall id | id in r.st.tasks ensures WakeOk(r, id, r.st.tasks[id]) { WakeStays(w, e, max, cap, id, r); }
    forall t | t in r.wakers ensures WakerOk(r, r.wakers[t]) { WakersKept(w, e, max, cap, t, r); }
    forall id | id in r.delivered || id in r.givenUp ensures id in r.st.tasks || OverOk(r, id) { WokenKept(w, e, max, cap, id, r); }
  }

  /** A step wakes nobody for a cancelled task, and loses no wake, if and only if it is harmless. */
  lemma KeptExactlyWhen(w: World, e: Event, max: nat, cap: nat)
    requires Inv(w, max) && WakesOk(w) && Enabled(w, e)
    ensures WakesOk(Apply(w, e, max, cap)) <==> Harmless(w, e)
  {
    if Harmless(w, e) {
      WakesStay(w, e, max, cap);
    } else {
      var r := Apply(w, e, max, cap);
      assert e.t in r.wakers && r.wakers[e.t].id == e.id && r.st.tasks[e.id].state == Cancelled;
    }
  }

  ghost predicate AllHarmless(w: World, events: seq<Event>, max: nat, cap: nat)
    decreases |events|
  {
    events == [] || (Enabled(w, events[0]) && Harmless(w, events[0]) && AllHarmless(Apply(w, events[0], max, cap), events[1..], max, cap))
  }

  lemma {:induction false} RunWakes(w: World, events: seq<Event>, last: World, max: nat, cap: nat)
    requires Inv(w, max) && WakesOk(w) && Reaches(w, events, last, max, cap) && AllHarmless(w, events, max, cap)
    ensures Inv(last, max) && WakesOk(last)
    decreases |events|
  {
    if events != [] {
      StepKeeps(w, events[0], max, cap);
      KeptExactlyWhen(w, events[0], max, cap);
      RunWakes(Apply(w, events[0], max, cap), events[1..], last, max, cap);
    }
  }

  /** In every run of harmless steps: a cancelled task wakes nobody; one done or failed is in the wake list
      until its wake was delivered, or given up with an end of the turn that would have answered it. */
  lemma WakesAreKept(events: seq<Event>, last: World, max: nat, cap: nat, id: string)
    requires Reaches(EMPTY, events, last, max, cap) && AllHarmless(EMPTY, events, max, cap) && id in last.st.tasks
    ensures last.st.tasks[id].state == Cancelled || last.st.tasks[id].state == Running ==> id !in last.delivered && id !in last.givenUp
    ensures last.st.tasks[id].state == Done || last.st.tasks[id].state == Failed ==>
      ToWake(last.st, id) || id in last.delivered || id in last.givenUp
  {
    EmptyOk(max);
    RunWakes(EMPTY, events, last, max, cap);
    assert WakeOk(last, id, last.st.tasks[id]);
  }

  // --- A run that wakes for a cancelled task ---

  ghost predicate Leads(w: World, e: Event, next: World) { Enabled(w, e) && Apply(w, e, 1, 1) == next }

  lemma Onward(events: seq<Event>, k: nat, w: World, next: World, last: World)
    requires k < |events| && Leads(w, events[k], next) && Reaches(next, events[k + 1..], last, 1, 1)
    ensures Reaches(w, events[k..], last, 1, 1)
  {
    assert events[k..][1..] == events[k + 1..];
  }

  const AT := "s:bg:c"

  const OVERLAP := [
    Open("s"), Register(AT, "s", "a"), ListRunning(1), Stop(AT, "m"), ListRunning(2),
    Sweep(2, AT, "", 0), Sweep(1, AT, "?", 0), Deliver(0)]

  const STARTED := Task("s", "a", Running, None, None, "", [], false)
  const STOPPED := STARTED.(cancelledBy := "m")
  const CANCELLED := STOPPED.(state := Cancelled, endedBy := Some(BySweep), message := Some(1))

  function AtStart(task: Task, lists: map<nat, map<string, bool>>): World {
    World(Store({"s"}, map[AT := task], map[], 1), map[AT := []], {}, lists, map[], {}, {}, {"s"}, map[AT := "s"])
  }

  function AtEnd(wakers: map<nat, Waker>, delivered: set<string>): World {
    World(Store({"s"}, map[AT := CANCELLED], map[AT := Result(1, Cancelled, "m", [], "")], 2), map[AT := []],
      {(AT, BySweep)}, map[1 := map[AT := false], 2 := map[AT := true]], wakers, delivered, {}, {"s"}, map[AT := "s"])
  }

  const ONE := map[1 := map[AT := false]]
  const BOTH := map[1 := map[AT := false], 2 := map[AT := true]]
  const OPENED := EMPTY.(st := EMPTY.st.(sessions := {"s"}), used := {"s"})

  lemma Starts()
    ensures Leads(EMPTY, OVERLAP[0], OPENED) && Leads(OPENED, OVERLAP[1], AtStart(STARTED, map[]))
  {
    assert EMPTY.st.sessions + {"s"} == {"s"};
    assert RunningOf(OPENED.st, "s", "a") == {};
  }

  lemma FirstLists()
    ensures Leads(AtStart(STARTED, map[]), OVERLAP[2], AtStart(STARTED, ONE))
  {
    assert Listed(AtStart(STARTED, map[]).st) == map[AT := false];
  }

  lemma MemberStops()
    ensures Leads(AtStart(STARTED, ONE), OVERLAP[3], AtStart(STOPPED, ONE))
  {
    assert AtStart(STARTED, ONE).st.tasks[AT := STOPPED] == AtStart(STOPPED, ONE).st.tasks;
  }

  lemma SecondLists()
    ensures Leads(AtStart(STOPPED, ONE), OVERLAP[4], AtStart(STOPPED, BOTH))
  {
    assert Listed(AtStart(STOPPED, ONE).st) == map[AT := true];
  }

  lemma SecondSweeps()
    ensures Leads(AtStart(STOPPED, BOTH), OVERLAP[5], AtEnd(map[], {}))
  {
    var w := AtStart(STOPPED, BOTH);
    assert w.st.tasks[AT := CANCELLED] == AtEnd(map[], {}).st.tasks;
    assert Ends(w.st, AT, BySweep, Cancelled, "").0 == AtEnd(map[], {}).st;
    assert w.told + {(AT, BySweep)} == {(AT, BySweep)};
  }

  lemma FirstSweeps()
    ensures Leads(AtEnd(map[], {}), OVERLAP[6], AtEnd(map[0 := Waker(AT, false)], {}))
  {
    var w := AtEnd(map[], {});
    assert w.told + {(AT, BySweep)} == w.told;
  }

  lemma FirstWakes()
    ensures Leads(AtEnd(map[0 := Waker(AT, false)], {}), OVERLAP[7], AtEnd(map[0 := Waker(AT, true)], {AT}))
  {
    assert {} + {AT} == {AT};
  }

  lemma OverlapEnds(last: World)
    requires last == AtEnd(map[0 := Waker(AT, true)], {AT})
    ensures Reaches(AtStart(STOPPED, BOTH), OVERLAP[5..], last, 1, 1)
  {
    assert OVERLAP[8..] == [];
    FirstWakes();
    Onward(OVERLAP, 7, AtEnd(map[0 := Waker(AT, false)], {}), last, last);
    FirstSweeps();
    Onward(OVERLAP, 6, AtEnd(map[], {}), AtEnd(map[0 := Waker(AT, false)], {}), last);
    SecondSweeps();
    Onward(OVERLAP, 5, AtStart(STOPPED, BOTH), AtEnd(map[], {}), last);
  }

  lemma OverlapRuns(last: World)
    requires last == AtEnd(map[0 := Waker(AT, true)], {AT})
    ensures Reaches(AtStart(STARTED, map[]), OVERLAP[2..], last, 1, 1)
  {
    OverlapEnds(last);
    SecondLists();
    Onward(OVERLAP, 4, AtStart(STOPPED, ONE), AtStart(STOPPED, BOTH), last);
    MemberStops();
    Onward(OVERLAP, 3, AtStart(STARTED, ONE), AtStart(STOPPED, ONE), last);
    FirstLists();
    Onward(OVERLAP, 2, AtStart(STARTED, map[]), AtStart(STARTED, ONE), last);
  }

  /** Two sweeps overlap, a member stops the task in between: the second ends it cancelled, the first, told
      the end is the sweep's, wakes its participant. */
  lemma WakesForCancelled()
    ensures exists last :: Reaches(EMPTY, OVERLAP, last, 1, 1) && AT in last.st.tasks && last.st.tasks[AT].state == Cancelled && AT in last.delivered
  {
    var last := AtEnd(map[0 := Waker(AT, true)], {AT});
    OverlapRuns(last);
    Starts();
    Onward(OVERLAP, 1, OPENED, AtStart(STARTED, map[]), last);
    Onward(OVERLAP, 0, EMPTY, OPENED, last);
    assert OVERLAP[0..] == OVERLAP;
  }

  // --- Who wakes at once ---

  /** The writer told an end is its own wakes the participant then and there, but for a cancelled task; the others
      wake nobody, whom the wake list is for. */
  lemma EnderWakes(w: World, e: Event, max: nat, cap: nat)
    requires IsEnd(e) && Enabled(w, e) && e.id in w.st.tasks && w.st.tasks[e.id].state == Running
    ensures var r := Apply(w, e, max, cap);
      if Asked(w, e) == Cancelled then r.wakers == w.wakers else r.wakers == w.wakers[e.t := Waker(e.id, false)]
  {
  }

  // --- The program's store and sweep ---

  /** The sweep's end of a task it found closed: failed, or cancelled when a member stopped it. */
  function Swept(st: Store, id: string, stopped: bool, reason: string): (Store, Ending) {
    if stopped then Ends(st, id, BySweep, Cancelled, "") else Ends(st, id, BySweep, Failed, reason)
  }

  /** One pass over the tasks listed running: those whose workflow is closed are ended. */
  function SweptAll(st: Store, rows: seq<(string, bool)>, closed: set<string>, reason: string): Store {
    if rows == [] then st else
    var n := |rows| - 1;
    var rest := SweptAll(st, rows[..n], closed, reason);
    if rows[n].0 in closed then Swept(rest, rows[n].0, rows[n].1, reason).0 else rest
  }

  predicate SameTask(a: Store, b: Store, id: string) {
    (id in a.tasks <==> id in b.tasks) && (id in a.tasks ==> a.tasks[id] == b.tasks[id])
  }

  /** A closed task whose end is the sweep's: running yet, or ended by a sweep. */
  predicate SweepEnds(st: Store, closed: set<string>, id: string) {
    id in closed && id in st.tasks && (st.tasks[id].state == Running || st.tasks[id].endedBy == Some(BySweep))
  }

  /** A sweep's end changes that task alone, and is told its own when it ends it or a sweep did. */
  lemma EndsOne(st: Store, id: string, state: State, content: string)
    requires state != Running
    ensures var (r, out) := Ends(st, id, BySweep, state, content);
      && (forall x :: x != id ==> SameTask(st, r, x))
      && (!out.gone && out.mine <==> id in st.tasks && (st.tasks[id].state == Running || st.tasks[id].endedBy == Some(BySweep)))
  {
  }

  /** What one pass of the sweep ends: each closed task listed that still runs, as failed with the sweep's reason, or
      as cancelled with no content when its row said a member had stopped it; the others stay. */
  lemma {:induction false} SweepMeans(st: Store, rows: seq<(string, bool)>, closed: set<string>, reason: string, id: string)
    requires forall i, j :: 0 <= i < j < |rows| ==> rows[i].0 != rows[j].0
    requires id in st.tasks && (st.tasks[id].state == Running ==> id !in st.results)
    ensures var r := SweptAll(st, rows, closed, reason);
      && id in r.tasks
      && (id !in closed || st.tasks[id].state != Running || ((id, true) !in rows && (id, false) !in rows) ==>
            r.tasks[id] == st.tasks[id] && (id in r.results <==> id in st.results) && (id in st.results ==> r.results[id] == st.results[id]))
      && (id in closed && st.tasks[id].state == Running && (id, false) in rows ==>
            id in r.results && r.tasks[id].state == Failed && r.results[id].content == reason && r.tasks[id].endedBy == Some(BySweep))
      && (id in closed && st.tasks[id].state == Running && (id, true) in rows ==>
            id in r.results && r.tasks[id].state == Cancelled && r.results[id].content == "" && r.tasks[id].endedBy == Some(BySweep))
  {
    if rows != [] {
      var n := |rows| - 1;
      SweepMeans(st, rows[..n], closed, reason, id);
      assert rows == rows[..n] + [rows[n]];
      assert forall i :: 0 <= i < n ==> rows[..n][i].0 != rows[n].0;
      if rows[n].0 == id { assert (id, true) !in rows[..n] && (id, false) !in rows[..n]; }
    }
  }

  class TaskStore {
    var sessions: set<string>
    var tasks: map<string, Task>
    var results: map<string, Result>
    var next: nat

    constructor ()
      ensures S() == Store({}, map[], map[], 1)
    {
      sessions, tasks, results, next := {}, map[], map[], 1;
    }

    function S(): Store
      reads this
    {
      Store(sessions, tasks, results, next)
    }

    method RegisterTask(id: string, session: string, participant: string, max: nat) returns (out: Registered)
      modifies this
      ensures (S(), out) == Registers(old(S()), id, session, participant, max)
    {
      if id in tasks {
        return Recorded;
      }
      if |RunningOf(S(), session, participant)| >= max {
        return TooMany;
      }
      if session !in sessions {
        return SessionGone;
      }
      tasks := tasks[id := Task(session, participant, Running, None, None, "", [], false)];
      out := Recorded;
    }

    method DropTask(id: string)
      modifies this
      ensures S() == Drops(old(S()), id)
    {
      if id in tasks && tasks[id].state == Running {
        tasks := tasks - {id};
      }
    }

    /** One conditional update; what it refuses is told apart after. */
    method AddTaskFollowUp(session: string, participant: string, id: string, f: string, max: nat) returns (out: Attached)
      modifies this
      ensures (S(), out) == Attaches(old(S()), session, participant, id, f, max)
    {
      if id in tasks && tasks[id].session == session && tasks[id].participant == participant && tasks[id].state == Running && |tasks[id].followUps| < max {
        tasks := tasks[id := tasks[id].(followUps := tasks[id].followUps + [f])];
        return Added;
      }
      if id !in tasks || tasks[id].session != session || tasks[id].participant != participant {
        return NotFound;
      }
      if tasks[id].state != Running {
        return Over;
      }
      out := Full;
    }

    method SetTaskCancelledBy(id: string, name: string) returns (out: Attached)
      modifies this
      ensures (S(), out) == Stops(old(S()), id, name)
    {
      if id in tasks && tasks[id].state == Running {
        tasks := tasks[id := tasks[id].(cancelledBy := name)];
        return Added;
      }
      out := if id in tasks then Over else NotFound;
    }

    method EndTask(id: string, writer: Writer, state: State, content: string) returns (out: Ending)
      modifies this
      ensures (S(), out) == Ends(old(S()), id, writer, state, content)
    {
      if id !in tasks {
        return GONE;
      }
      var t := tasks[id];
      if t.state != Running {
        return Ending(false, t.endedBy == Some(writer), if t.message.Some? then t.message.value else 0, t.state);
      }
      t := t.(state := state, endedBy := Some(writer));
      if state != Cancelled {
        t := t.(cancelledBy := ""); // stopped too late, it ended all the same
      }
      var result := Result(next, state, t.cancelledBy, t.followUps, content);
      next := next + 1;
      if id in results {
        result := results[id];
      } else {
        results := results[id := result];
      }
      assert results == old(results)[id := result];
      tasks := tasks[id := t.(message := Some(result.id))];
      out := Ending(false, true, result.id, state);
    }

    method SetTaskWoken(id: string)
      modifies this
      ensures S() == Wakes(old(S()), id)
    {
      if id in tasks {
        tasks := tasks[id := tasks[id].(woken := true)];
      }
    }

    /** Ends the tasks listed running whose workflow closed, and wakes for those listed as not stopped whose
        end is the sweep's: its own, or an overlapping one's. */
    method EndClosedTasks(rows: seq<(string, bool)>, closed: set<string>, reason: string) returns (wake: seq<string>)
      requires forall i, j :: 0 <= i < j < |rows| ==> rows[i].0 != rows[j].0
      modifies this
      ensures S() == SweptAll(old(S()), rows, closed, reason)
      ensures forall id :: id in wake <==> (id, false) in rows && SweepEnds(old(S()), closed, id)
    {
      wake := [];
      for i := 0 to |rows|
        invariant S() == SweptAll(old(S()), rows[..i], closed, reason)
        invariant forall id :: id in wake <==> (id, false) in rows[..i] && SweepEnds(old(S()), closed, id)
        invariant forall k :: i <= k < |rows| ==> SameTask(old(S()), S(), rows[k].0)
      {
        assert rows[..i + 1] == rows[..i] + [rows[i]] && rows[..i + 1][..i] == rows[..i];
        var (id, stopped) := rows[i];
        if id !in closed {
          continue;
        }
        var state, content := Failed, reason;
        if stopped {
          state, content := Cancelled, "";
        }
        ghost var before := S();
        var end := EndTask(id, BySweep, state, content);
        EndsOne(before, id, state, content);
        if end.gone || !end.mine {
          continue;
        }
        if state != Cancelled {
          wake := wake + [id];
        }
      }
      assert rows[..|rows|] == rows;
    }
  }
}
