/** The cache of the sessions' states (session/status.go): shared loads, generations, and every
    interleaving of requests, loads, cancellations and invalidations. */
module StatusCache {
  import opened Text

  /** How long a state is reused, in nanoseconds. */
  const TTL := 3_000_000_000

  /** A state read: when, by the clock that ages it; began tells, in steps, when its reading began. */
  datatype Value = Value(data: string, at: int, began: nat)

  /** The cache's fields; a channel is a number. */
  datatype Cache = Cache(
    gen: nat, value: Option<Value>, loading: Option<nat>,
    workflows: map<string, Value>, states: map<string, Value>, stateLoads: map<string, nat>,
    nextChan: nat)

  predicate Fresh(v: Value, clock: int) { clock - v.at < TTL }

  // --- What each stretch under the lock does ---

  datatype Look = Give(v: Value) | Wait(chan: nat, starts: bool) | Read

  /** get: the cached states, or the previous ones while a load runs; a load started when none does. */
  function Gets(c: Cache, clock: int): (Cache, Look) {
    if c.value.Some? && Fresh(c.value.value, clock) then (c, Give(c.value.value)) else
    var starts := c.loading.None?;
    var d := if starts then c.(loading := Some(c.nextChan), nextChan := c.nextChan + 1) else c;
    (d, if d.value.Some? then Give(d.value.value) else Wait(d.loading.value, starts))
  }

  /** refresh, its load done: kept unless the states were invalidated since it started. */
  function Refreshes(c: Cache, gen: nat, chan: nat, v: Option<Value>): Cache {
    var d := if c.gen == gen then c.(value := v) else c;
    if d.loading == Some(chan) then d.(loading := None) else d
  }

  function Describes(c: Cache, id: string, clock: int): Look {
    if id in c.workflows && Fresh(c.workflows[id], clock) then Give(c.workflows[id]) else Read
  }

  /** The entries still young enough. */
  function Young(m: map<string, Value>, clock: int): map<string, Value> {
    map k | k in m && Fresh(m[k], clock) :: m[k]
  }

  function Described(c: Cache, gen: nat, id: string, v: Value, clock: int): Cache {
    if c.gen == gen then c.(workflows := Young(c.workflows, clock)[id := v]) else c
  }

  /** participantState: the cached answer, the query running waited for, or one's own. */
  function Asks(c: Cache, id: string, clock: int): (Cache, Look) {
    if id in c.states && Fresh(c.states[id], clock) then (c, Give(c.states[id]))
    else if id in c.stateLoads then (c, Wait(c.stateLoads[id], false))
    else (c.(stateLoads := c.stateLoads[id := c.nextChan], nextChan := c.nextChan + 1), Read)
  }

  /** Its query done: kept unless invalidated since it started, or cut short. */
  function Answered(c: Cache, gen: nat, id: string, chan: nat, v: Value, cut: bool, clock: int): Cache {
    var d := if c.gen == gen && !cut then c.(states := Young(c.states, clock)[id := v]) else c;
    if id in d.stateLoads && d.stateLoads[id] == chan then d.(stateLoads := d.stateLoads - {id}) else d
  }

  function Invalidates(c: Cache): Cache {
    Cache(c.gen + 1, None, None, map[], map[], map[], c.nextChan)
  }

  // --- What a look gives, and what a reading done too late changes ---

  /** A request for the states waits only when there is nothing to give, on the load looked for; it is given
      what is cached, a load of it started when it is old and none runs; nothing cached changes. */
  lemma LookMeans(c: Cache, clock: int)
    ensures var (d, look) := Gets(c, clock);
      && (if c.value.Some? then look == Give(c.value.value) else look.Wait? && d.loading == Some(look.chan))
      && (c.value.Some? && Fresh(c.value.value, clock) ==> d == c)
      && (c.value.None? || !Fresh(c.value.value, clock) ==> d.loading == if c.loading.Some? then c.loading else Some(c.nextChan))
      && d.(loading := c.loading, nextChan := c.nextChan) == c
  {
  }

  /** A request for a participant is given a fresh answer, waits for the query running, or makes its own, the
      one looked for from then on; no other query changes. */
  lemma AskMeans(c: Cache, id: string, clock: int)
    ensures var (d, look) := Asks(c, id, clock);
      && (look.Give? <==> id in c.states && Fresh(c.states[id], clock))
      && (look.Wait? ==> id in c.stateLoads && look.chan == c.stateLoads[id] && d == c)
      && (look.Read? ==> id !in c.stateLoads && d.stateLoads == c.stateLoads[id := c.nextChan] && d.nextChan == c.nextChan + 1)
      && (!look.Read? ==> d == c) && d.(stateLoads := c.stateLoads, nextChan := c.nextChan) == c
  {
  }

  // --- What was read is given ---

  /** A value read at at is reused for three seconds by the clock. */
  lemma FreshMeans(v: Value, clock: int)
    ensures Fresh(v, clock) <==> clock - v.at < 3_000_000_000
  {
  }

  /** A load that ends with nothing invalidated since it began: what it read is given to every request of the next
      three seconds, none of them loading; a load that failed leaves nothing to give. Either way it is not looked
      for any more, and the rest of the cache stays. */
  lemma LoadedIsGiven(c: Cache, chan: nat, v: Option<Value>, clock: int)
    requires c.loading == Some(chan)
    ensures var d := Refreshes(c, c.gen, chan, v);
      && d == c.(value := v, loading := None)
      && (v.Some? && clock - v.value.at < 3_000_000_000 ==> Gets(d, clock) == (d, Give(v.value)))
      && (v.Some? && clock - v.value.at >= 3_000_000_000 ==> Gets(d, clock) == (d.(loading := Some(d.nextChan), nextChan := d.nextChan + 1), Give(v.value)))
      && (v.None? ==> Gets(d, clock) == (d.(loading := Some(d.nextChan), nextChan := d.nextChan + 1), Wait(d.nextChan, true)))
  {
  }

  /** The same of a workflow's state: its next readers are given it, each reading it itself once it is old; the other
      workflows' states young enough stay. */
  lemma DescribedIsGiven(c: Cache, id: string, v: Value, clock: int, other: string, later: int)
    ensures var d := Described(c, c.gen, id, v, clock);
      && Describes(d, id, later) == (if later - v.at < 3_000_000_000 then Give(v) else Read)
      && (other != id ==> (other in d.workflows <==> other in c.workflows && clock - c.workflows[other].at < 3_000_000_000))
      && (other != id && other in d.workflows ==> d.workflows[other] == c.workflows[other]) && d.(workflows := c.workflows) == c
  {
  }

  /** And of a participant's answer, its query no longer looked for: an answer cut short is not kept. */
  lemma AnsweredIsGiven(c: Cache, id: string, chan: nat, v: Value, cut: bool, clock: int, other: string, later: int)
    requires id in c.stateLoads && c.stateLoads[id] == chan && (id in c.states ==> later - c.states[id].at >= 3_000_000_000)
    ensures var d := Answered(c, c.gen, id, chan, v, cut, clock);
      && d.stateLoads == c.stateLoads - {id} && d.(states := c.states, stateLoads := c.stateLoads) == c
      && (!cut && later - v.at < 3_000_000_000 ==> Asks(d, id, later) == (d, Give(v)))
      && (cut || later - v.at >= 3_000_000_000 ==> Asks(d, id, later) == (d.(stateLoads := d.stateLoads[id := d.nextChan], nextChan := d.nextChan + 1), Read))
      && (cut ==> d.states == c.states)
      && (!cut && other != id ==> (other in d.states <==> other in c.states && clock - c.states[other].at < 3_000_000_000))
      && (other != id && other in d.states ==> d.states[other] == c.states[other])
  {
  }

  /** After an invalidation nothing read before is given: the next request of each kind reads anew. */
  lemma InvalidatedIsGone(c: Cache, clock: int, id: string)
    ensures var d := Invalidates(c);
      && d.gen == c.gen + 1 && d.nextChan == c.nextChan
      && Gets(d, clock) == (d.(loading := Some(d.nextChan), nextChan := d.nextChan + 1), Wait(d.nextChan, true))
      && Describes(d, id, clock) == Read && Asks(d, id, clock) == (d.(stateLoads := map[id := d.nextChan], nextChan := d.nextChan + 1), Read)
  {
  }

  /** The lookings between an invalidation and the end of a reading that began before it. */
  function After(c: Cache, looks: seq<(Option<string>, int)>): Cache {
    if looks == [] then c else
    var n := |looks| - 1;
    var d := After(c, looks[..n]);
    match looks[n].0 case None => Gets(d, looks[n].1).0 case Some(id) => Asks(d, id, looks[n].1).0
  }

  lemma {:induction false} AfterIsNew(c: Cache, looks: seq<(Option<string>, int)>, gen: nat, chan: nat)
    requires gen < c.gen && chan < c.nextChan && c.loading != Some(chan) && forall id :: id in c.stateLoads ==> c.stateLoads[id] != chan
    ensures var d := After(c, looks);
      gen < d.gen && chan < d.nextChan && d.loading != Some(chan) && forall id :: id in d.stateLoads ==> d.stateLoads[id] != chan
  {
    if looks != [] { AfterIsNew(c, looks[..|looks| - 1], gen, chan); }
  }

  /** What was being read when the cache was invalidated changes nothing when it ends, however many requests
      looked since: it is not kept, of any kind, and the readings that replaced it are still looked for. */
  lemma SupersededChangesNothing(c: Cache, looks: seq<(Option<string>, int)>, gen: nat, chan: nat, v: Value, id: string, cut: bool, clock: int)
    requires gen <= c.gen && chan < c.nextChan
    ensures var d := After(Invalidates(c), looks);
      && Refreshes(d, gen, chan, Some(v)) == d && Refreshes(d, gen, chan, None) == d
      && Described(d, gen, id, v, clock) == d && Answered(d, gen, id, chan, v, cut, clock) == d
  {
    AfterIsNew(Invalidates(c), looks, gen, chan);
  }

  // --- Any run ---

  datatype Kind = All | Workflow(id: string) | Participant(id: string)

  /** A request: what it waits for, reads itself, or was given. */
  datatype Phase = Ready | Waiting(chan: nat) | Reading(gen: nat, began: nat) | Querying(gen: nat, began: nat, chan: nat) | Given(v: Value) | Left

  /** after is the step of the last invalidation done when the request started. */
  datatype Request = Request(kind: Kind, after: nat, phase: Phase)

  /** A load of the session states, or a participant's query, made by a request: until it closes its channel. */
  datatype Load = Load(gen: nat, began: nat, of: Option<string>, maker: nat)

  datatype World = World(c: Cache, step: nat, invalidated: nat, loads: map<nat, Load>, closed: set<nat>, requests: map<nat, Request>)

  datatype Event =
    | Start(r: nat, kind: Kind)
    | Check(r: nat, clock: int)
    | Wake(r: nat)
    | Leave(r: nat)
    | Loaded(chan: nat, answer: Option<string>, clock: int)
    | Describe(r: nat, data: string, at: int, clock: int)
    | Answer(r: nat, data: string, at: int, cut: bool, clock: int)
    | Invalidate

  predicate Enabled(w: World, e: Event) {
    match e
    case Start(r, _) => r !in w.requests
    case Check(r, _) => r in w.requests && w.requests[r].phase.Ready?
    case Wake(r) => r in w.requests && w.requests[r].phase.Waiting? && w.requests[r].phase.chan in w.closed
    case Leave(r) => r in w.requests && w.requests[r].phase.Waiting?
    case Loaded(chan, _, _) => chan in w.loads && w.loads[chan].of.None?
    case Describe(r, _, _, _) => r in w.requests && w.requests[r].phase.Reading? && w.requests[r].kind.Workflow?
    case Answer(r, _, _, _, _) => r in w.requests && w.requests[r].phase.Querying? && w.requests[r].kind.Participant?
    case Invalidate => true
  }

  function Moved(w: World, r: nat, phase: Phase): map<nat, Request>
    requires r in w.requests
  {
    w.requests[r := w.requests[r].(phase := phase)]
  }

  /** The lock taken and the cache looked at. */
  function Checked(w: World, r: nat, clock: int): World
    requires r in w.requests
  {
    match w.requests[r].kind
    case All =>
      var (c, look) := Gets(w.c, clock);
      var loads := if c.nextChan != w.c.nextChan then w.loads[w.c.nextChan := Load(w.c.gen, w.step, None, r)] else w.loads;
      w.(c := c, loads := loads, requests := Moved(w, r, match look case Give(v) => Given(v) case Wait(chan, _) => Waiting(chan) case Read => Left))
    case Workflow(id) =>
      w.(requests := Moved(w, r, match Describes(w.c, id, clock) case Give(v) => Given(v) case _ => Reading(w.c.gen, w.step)))
    case Participant(id) =>
      var (c, look) := Asks(w.c, id, clock);
      var loads := if look.Read? then w.loads[w.c.nextChan := Load(w.c.gen, w.step, Some(id), r)] else w.loads;
      w.(c := c, loads := loads, requests := Moved(w, r,
        match look case Give(v) => Given(v) case Wait(chan, _) => Waiting(chan) case Read => Querying(w.c.gen, w.step, w.c.nextChan)))
  }

  function Apply(w0: World, e: Event): World
    requires Enabled(w0, e)
  {
    var w := w0.(step := w0.step + 1);
    match e
    case Start(r, kind) => w.(requests := w.requests[r := Request(kind, w.invalidated, Ready)])
    case Check(r, clock) => Checked(w, r, clock)
    case Wake(r) => w.(requests := Moved(w, r, Ready))
    case Leave(r) => w.(requests := Moved(w, r, Left))
    case Loaded(chan, answer, clock) =>
      var l := w.loads[chan];
      var v := if answer.Some? then Some(Value(answer.value, clock, l.began)) else None;
      w.(c := Refreshes(w.c, l.gen, chan, v), loads := w.loads - {chan}, closed := w.closed + {chan})
    case Describe(r, data, at, clock) =>
      var p := w.requests[r].phase;
      var v := Value(data, at, p.began);
      w.(c := Described(w.c, p.gen, w.requests[r].kind.id, v, clock), requests := Moved(w, r, Given(v)))
    case Answer(r, data, at, cut, clock) =>
      var p := w.requests[r].phase;
      var v := Value(data, at, p.began);
      w.(c := Answered(w.c, p.gen, w.requests[r].kind.id, p.chan, v, cut, clock),
         loads := w.loads - {p.chan}, closed := w.closed + {p.chan}, requests := Moved(w, r, Given(v)))
    case Invalidate => w.(c := Invalidates(w.c), invalidated := w.step)
  }

  /** What is cached was read after the last invalidation. */
  predicate CacheOk(w: World) {
    && (w.c.value.Some? ==> w.c.value.value.began >= w.invalidated)
    && (forall id :: id in w.c.workflows ==> w.c.workflows[id].began >= w.invalidated)
    && (forall id :: id in w.c.states ==> w.c.states[id].began >= w.invalidated)
  }

  /** A reading of the cache's generation began after the last invalidation; no one is of a later one. */
  predicate GenOk(w: World, gen: nat, began: nat) { gen <= w.c.gen && (gen == w.c.gen ==> began >= w.invalidated) && began <= w.step }

  /** A load still running has its channel open; of the cache's generation, it is the one looked for. */
  predicate LoadOk(w: World, chan: nat, l: Load) {
    && GenOk(w, l.gen, l.began) && chan < w.c.nextChan && chan !in w.closed
    && (l.gen == w.c.gen ==> match l.of
        case None => w.c.loading == Some(chan)
        case Some(id) => id in w.c.stateLoads && w.c.stateLoads[id] == chan)
  }

  predicate RequestOk(w: World, r: nat, q: Request) {
    && q.after <= w.invalidated
    && (match q.phase
        case Waiting(chan) => chan in w.loads || chan in w.closed
        case Reading(gen, began) => GenOk(w, gen, began) && began >= q.after
        case Querying(gen, began, chan) => began >= q.after && q.kind.Participant? && chan in w.loads && w.loads[chan] == Load(gen, began, Some(q.kind.id), r)
        case Given(v) => v.began >= q.after
        case _ => true)
  }

  ghost predicate Inv(w: World) {
    && w.invalidated <= w.step && CacheOk(w)
    && (forall chan :: chan in w.loads ==> LoadOk(w, chan, w.loads[chan]))
    && (forall chan :: chan in w.closed ==> chan < w.c.nextChan)
    && (w.c.loading.Some? ==> w.c.loading.value in w.loads && w.loads[w.c.loading.value].of == None)
    && (forall id :: id in w.c.stateLoads ==> w.c.stateLoads[id] in w.loads && w.loads[w.c.stateLoads[id]].of == Some(id))
    && (forall r :: r in w.requests ==> RequestOk(w, r, w.requests[r]))
  }
  // --- Kept, stretch by stretch ---

  lemma StoredNew(w: World, e: Event, r: World)
    requires Inv(w) && Enabled(w, e) && r == Apply(w, e) && (e.Loaded? || e.Describe? || e.Answer?)
    ensures CacheOk(r) && r.invalidated <= r.step
  {
    match e
    case Loaded(chan, _, _) => assert LoadOk(w, chan, w.loads[chan]);
    case Describe(q, _, _, _) => assert RequestOk(w, q, w.requests[q]);
    case Answer(q, _, _, _, _) =>
      assert RequestOk(w, q, w.requests[q]);
      assert LoadOk(w, w.requests[q].phase.chan, w.loads[w.requests[q].phase.chan]);
  }

  lemma CacheKept(w: World, e: Event, r: World)
    requires Inv(w) && Enabled(w, e) && r == Apply(w, e)
    ensures CacheOk(r) && r.invalidated <= r.step
  {
    if e.Loaded? || e.Describe? || e.Answer? { StoredNew(w, e, r); }
  }

  /** A look at the cache leaves every load running as it was. */
  lemma CheckedLoads(w: World, r: nat, clock: int, chan: nat)
    requires r in w.requests && chan in w.loads && LoadOk(w, chan, w.loads[chan])
    ensures var v := Checked(w, r, clock); chan in v.loads && v.loads[chan] == w.loads[chan] && LoadOk(v, chan, v.loads[chan])
  {
  }

  lemma StartedLoad(w: World, r: nat, clock: int, chan: nat)
    requires r in w.requests && chan !in w.loads && chan in Checked(w, r, clock).loads && w.invalidated <= w.step
    requires forall c :: c in w.closed ==> c < w.c.nextChan
    ensures LoadOk(Checked(w, r, clock), chan, Checked(w, r, clock).loads[chan])
  {
  }

  lemma EndedLoads(w: World, e: Event, r: World, chan: nat)
    requires Enabled(w, e) && r == Apply(w, e) && (e.Loaded? || e.Describe? || e.Answer?)
    requires chan in r.loads && chan in w.loads && LoadOk(w, chan, w.loads[chan])
    ensures LoadOk(r, chan, r.loads[chan])
  {
  }

  lemma LaterLoad(w: World, chan: nat)
    requires Inv(w) && chan in w.loads
    ensures LoadOk(w.(step := w.step + 1), chan, w.loads[chan])
  {
    assert LoadOk(w, chan, w.loads[chan]);
  }

  lemma CheckLoads(w: World, e: Event, r: World, chan: nat)
    requires Inv(w) && Enabled(w, e) && e.Check? && r == Apply(w, e) && chan in r.loads
    ensures LoadOk(r, chan, r.loads[chan])
  {
    var v := w.(step := w.step + 1);
    assert r == Checked(v, e.r, e.clock);
    if chan in w.loads {
      LaterLoad(w, chan);
      CheckedLoads(v, e.r, e.clock, chan);
    } else {
      StartedLoad(v, e.r, e.clock, chan);
    }
  }

  lemma OtherLoads(w: World, e: Event, r: World, chan: nat)
    requires Enabled(w, e) && (e.Start? || e.Wake? || e.Leave? || e.Invalidate?) && r == Apply(w, e)
    requires chan in r.loads && chan in w.loads && LoadOk(w, chan, w.loads[chan])
    ensures LoadOk(r, chan, r.loads[chan])
  {
  }

  lemma LoadKept(w: World, e: Event, r: World, chan: nat)
    requires Inv(w) && Enabled(w, e) && r == Apply(w, e) && chan in r.loads
    ensures LoadOk(r, chan, r.loads[chan])
  {
    if e.Check? {
      CheckLoads(w, e, r, chan);
    } else {
      assert chan in w.loads && LoadOk(w, chan, w.loads[chan]);
      if e.Loaded? || e.Describe? || e.Answer? { EndedLoads(w, e, r, chan); } else { OtherLoads(w, e, r, chan); }
    }
  }

  /** A waiter's channel is still that of a load, or closed. */
  lemma ChannelKept(w: World, e: Event, r: World, chan: nat)
    requires Inv(w) && Enabled(w, e) && r == Apply(w, e) && (chan in w.loads || chan in w.closed)
    ensures chan in r.loads || chan in r.closed
  {
  }

  lemma ChannelsKept(w: World, e: Event, r: World)
    requires Inv(w) && Enabled(w, e) && r == Apply(w, e)
    ensures forall chan :: chan in r.closed ==> chan < r.c.nextChan
    ensures r.c.loading.Some? ==> r.c.loading.value in r.loads && r.loads[r.c.loading.value].of == None
  {
    match e
    case Loaded(chan, _, _) => assert LoadOk(w, chan, w.loads[chan]);
    case Answer(q, _, _, _, _) => assert RequestOk(w, q, w.requests[q]); assert LoadOk(w, w.requests[q].phase.chan, w.loads[w.requests[q].phase.chan]);
    case _ =>
  }

  lemma QueriesKept(w: World, e: Event, r: World, id: string)
    requires Inv(w) && Enabled(w, e) && r == Apply(w, e) && id in r.c.stateLoads
    ensures r.c.stateLoads[id] in r.loads && r.loads[r.c.stateLoads[id]].of == Some(id)
  {
    match e
    case Loaded(chan, _, _) => assert LoadOk(w, chan, w.loads[chan]);
    case Answer(q, _, _, _, _) => assert RequestOk(w, q, w.requests[q]); assert LoadOk(w, w.requests[q].phase.chan, w.loads[w.requests[q].phase.chan]);
    case _ =>
  }

  /** What a request is given, or waits for, after a look at the cache. */
  lemma CheckedRequest(w: World, q: nat, clock: int)
    requires Inv(w) && q in w.requests && w.requests[q].phase.Ready?
    ensures RequestOk(Checked(w, q, clock), q, Checked(w, q, clock).requests[q])
  {
    assert RequestOk(w, q, w.requests[q]);
  }

  lemma OtherRequest(w: World, e: Event, r: World, q: nat)
    requires Inv(w) && Enabled(w, e) && r == Apply(w, e) && q in w.requests && !e.Start? && (e.Loaded? || e.Invalidate? || e.r != q)
    ensures q in r.requests && RequestOk(r, q, r.requests[q])
  {
    assert RequestOk(w, q, w.requests[q]);
    if w.requests[q].phase.Waiting? { ChannelKept(w, e, r, w.requests[q].phase.chan); }
    if e.Answer? { assert RequestOk(w, e.r, w.requests[e.r]); }
    if e.Check? && w.requests[q].phase.Querying? { assert LoadOk(w, w.requests[q].phase.chan, w.loads[w.requests[q].phase.chan]); }
  }

  lemma Later(w: World)
    requires Inv(w)
    ensures Inv(w.(step := w.step + 1))
  {
    var v := w.(step := w.step + 1);
    forall chan | chan in v.loads ensures LoadOk(v, chan, v.loads[chan]) { assert LoadOk(w, chan, w.loads[chan]); }
    forall r | r in v.requests ensures RequestOk(v, r, v.requests[r]) { assert RequestOk(w, r, w.requests[r]); }
  }

  lemma CheckKept(w: World, e: Event, r: World, q: nat)
    requires Inv(w) && Enabled(w, e) && r == Apply(w, e) && e.Check? && e.r == q
    ensures RequestOk(r, q, r.requests[q])
  {
    var v := w.(step := w.step + 1);
    Later(w);
    assert v.requests[q].phase.Ready?;
    CheckedRequest(v, q, e.clock);
    assert r == Checked(v, q, e.clock);
  }

  /** What a request gives itself. */
  lemma OwnMove(w: World, e: Event, r: World, q: nat)
    requires Enabled(w, e) && r == Apply(w, e) && (e.Wake? || e.Leave? || e.Describe? || e.Answer?) && e.r == q
    requires RequestOk(w, q, w.requests[q])
    ensures RequestOk(r, q, r.requests[q])
  {
  }

  lemma Started(w: World, e: Event, r: World)
    requires Enabled(w, e) && r == Apply(w, e) && e.Start?
    ensures RequestOk(r, e.r, r.requests[e.r])
    ensures forall q :: q in w.requests && RequestOk(w, q, w.requests[q]) ==> RequestOk(r, q, r.requests[q])
  {
  }

  lemma RequestIs(w: World, q: nat)
    requires Inv(w) && q in w.requests
    ensures RequestOk(w, q, w.requests[q])
  {
  }

  lemma RequestKept(w: World, e: Event, r: World, q: nat)
    requires Inv(w) && Enabled(w, e) && r == Apply(w, e) && q in r.requests
    ensures RequestOk(r, q, r.requests[q])
  {
    if q in w.requests { RequestIs(w, q); }
    if e.Start? {
      Started(w, e, r);
    } else if e.Loaded? || e.Invalidate? || e.r != q {
      OtherRequest(w, e, r, q);
    } else if e.Check? {
      CheckKept(w, e, r, q);
    } else {
      OwnMove(w, e, r, q);
    }
  }

  lemma StepKeeps(w: World, e: Event)
    requires Inv(w) && Enabled(w, e)
    ensures Inv(Apply(w, e))
  {
    var r := Apply(w, e);
    CacheKept(w, e, r);
    ChannelsKept(w, e, r);
    forall chan | chan in r.loads ensures LoadOk(r, chan, r.loads[chan]) { LoadKept(w, e, r, chan); }
    forall id | id in r.c.stateLoads ensures r.c.stateLoads[id] in r.loads && r.loads[r.c.stateLoads[id]].of == Some(id) { QueriesKept(w, e, r, id); }
    forall q | q in r.requests ensures RequestOk(r, q, r.requests[q]) { RequestKept(w, e, r, q); }
  }
  ghost predicate Reaches(w: World, events: seq<Event>, last: World)
    decreases |events|
  {
    if events == [] then w == last else Enabled(w, events[0]) && Reaches(Apply(w, events[0]), events[1..], last)
  }

  const EMPTY := World(Cache(0, None, None, map[], map[], map[], 0), 0, 0, map[], {}, map[])

  lemma {:induction false} RunKeeps(w: World, events: seq<Event>, last: World)
    requires Inv(w) && Reaches(w, events, last)
    ensures Inv(last)
    decreases |events|
  {
    if events != [] {
      StepKeeps(w, events[0]);
      RunKeeps(Apply(w, events[0]), events[1..], last);
    }
  }

  /** In every run, for the session states, single workflows and participants alike: what a request is
      given was read from after the last invalidation done when it started, whatever loads, waiters and
      cancellations are under way. */
  lemma NothingFromBefore(events: seq<Event>, last: World, r: nat)
    requires Reaches(EMPTY, events, last) && r in last.requests && last.requests[r].phase.Given?
    ensures last.requests[r].phase.v.began >= last.requests[r].after
  {
    RunKeeps(EMPTY, events, last);
    assert RequestOk(last, r, last.requests[r]);
  }

  /** In every run: when a load of the states ends, if none was invalidated since it began, a request that looks
      within three seconds is given what it read. */
  lemma LoadsAreShared(events: seq<Event>, w: World, chan: nat, answer: string, clock: int, r: nat, later: int)
    requires Reaches(EMPTY, events, w) && Enabled(w, Loaded(chan, Some(answer), clock)) && w.loads[chan].gen == w.c.gen
    requires r in w.requests && w.requests[r] == Request(All, w.requests[r].after, Ready) && later - clock < 3_000_000_000
    ensures var v := Apply(w, Loaded(chan, Some(answer), clock));
      Enabled(v, Check(r, later)) && Apply(v, Check(r, later)).requests[r].phase == Given(Value(answer, clock, w.loads[chan].began))
  {
    RunKeeps(EMPTY, events, w);
    assert LoadOk(w, chan, w.loads[chan]);
    LoadedIsGiven(w.c, chan, Some(Value(answer, clock, w.loads[chan].began)), later);
  }

  /** In every run: a request waits on the channel of a load still running, or on one closed; a channel
      about to be closed was not closed before. */
  lemma ChannelsCloseOnce(events: seq<Event>, last: World, r: nat)
    requires Reaches(EMPTY, events, last) && r in last.requests
    ensures last.requests[r].phase.Waiting? ==> last.requests[r].phase.chan in last.loads || last.requests[r].phase.chan in last.closed
    ensures last.requests[r].phase.Querying? ==> last.requests[r].phase.chan in last.loads && last.requests[r].phase.chan !in last.closed
    ensures forall chan :: chan in last.loads ==> chan !in last.closed
  {
    RunKeeps(EMPTY, events, last);
    assert RequestOk(last, r, last.requests[r]);
    assert forall chan :: chan in last.loads ==> LoadOk(last, chan, last.loads[chan]);
  }

  /** In every run: no two loads of the session states, nor two queries of one participant, run at once,
      but those an invalidation superseded. */
  lemma OneLoadAtOnce(events: seq<Event>, last: World, a: nat, b: nat)
    requires Reaches(EMPTY, events, last) && a in last.loads && b in last.loads
    requires last.loads[a].gen == last.c.gen && last.loads[b].gen == last.c.gen && last.loads[a].of == last.loads[b].of
    ensures a == b
  {
    RunKeeps(EMPTY, events, last);
    assert LoadOk(last, a, last.loads[a]) && LoadOk(last, b, last.loads[b]);
  }

  // --- The program's cache: its fields, and each stretch under the lock ---

  class Statuses {
    var gen: nat
    var value: Option<Value>
    var loading: Option<nat>
    var workflows: map<string, Value>
    var states: map<string, Value>
    var stateLoads: map<string, nat>
    var nextChan: nat

    constructor ()
      ensures C() == EMPTY.c
    {
      gen, value, loading, workflows, states, stateLoads, nextChan := 0, None, None, map[], map[], map[], 0;
    }

    function C(): Cache
      reads this
    {
      Cache(gen, value, loading, workflows, states, stateLoads, nextChan)
    }

    method Get(clock: int) returns (look: Look)
      modifies this
      ensures (C(), look) == Gets(old(C()), clock)
    {
      if value.Some? && Fresh(value.value, clock) {
        return Give(value.value);
      }
      var starts := false;
      if loading.None? {
        loading, nextChan, starts := Some(nextChan), nextChan + 1, true;
      }
      if value.Some? {
        return Give(value.value);
      }
      look := Wait(loading.value, starts);
    }

    method Refresh(of: nat, chan: nat, v: Option<Value>)
      modifies this
      ensures C() == Refreshes(old(C()), of, chan, v)
    {
      if gen == of {
        value := v;
      }
      if loading == Some(chan) { // not replaced by a load started after an invalidation
        loading := None;
      }
    }

    /** Forgets the entries too old to be reused. */
    method DropOld(m: map<string, Value>, clock: int) returns (young: map<string, Value>)
      ensures young == Young(m, clock)
    {
      young := m;
      var keys := m.Keys;
      while keys != {}
        invariant keys <= m.Keys && keys <= young.Keys
        invariant young == map k | k in m && (k in keys || Fresh(m[k], clock)) :: m[k]
        decreases keys
      {
        var k :| k in keys;
        if clock - m[k].at >= TTL {
          young := young - {k};
        }
        keys := keys - {k};
      }
    }

    method StoreWorkflow(of: nat, id: string, v: Value, clock: int)
      modifies this
      ensures C() == Described(old(C()), of, id, v, clock)
    {
      if gen == of { // not read before an action that changed it
        workflows := DropOld(workflows, clock);
        workflows := workflows[id := v];
      }
    }

    method Ask(id: string, clock: int) returns (look: Look)
      modifies this
      ensures (C(), look) == Asks(old(C()), id, clock)
    {
      if id in states && Fresh(states[id], clock) {
        return Give(states[id]);
      }
      if id in stateLoads {
        return Wait(stateLoads[id], false);
      }
      stateLoads, nextChan := stateLoads[id := nextChan], nextChan + 1;
      look := Read;
    }

    method StoreState(of: nat, id: string, chan: nat, v: Value, cut: bool, clock: int)
      modifies this
      ensures C() == Answered(old(C()), of, id, chan, v, cut, clock)
    {
      if gen == of && !cut { // not read before an action, nor cut short
        states := DropOld(states, clock);
        states := states[id := v];
      }
      if id in stateLoads && stateLoads[id] == chan { // not replaced after an invalidation
        stateLoads := stateLoads - {id};
      }
    }

    method Invalidate()
      modifies this
      ensures C() == Invalidates(old(C()))
    {
      value, workflows, states, stateLoads := None, map[], map[], map[];
      gen := gen + 1;
      loading := None; // a running load now stores nothing; the next request starts its own
    }
  }
}
