/** Choosing a machine and making a directive on it (store/machine.go, store/machine_llm.go): the best
    machine whatever the listing, the caps of each kind, one directive a call. */
module Picking {
  import opened Text
  import opened Sets

  // --- The choice ---

  datatype Choice = Choice(id: string, priority: int, max: int, open: int, online: bool, paused: bool, can: bool)

  predicate Eligible(c: Choice) { c.online && !c.paused && c.can && c.open < c.max }

  /** c comes before b: the higher priority, then the less busy, then the first by ID. */
  predicate Before(c: Choice, b: Choice) {
    c.priority > b.priority || (c.priority == b.priority &&
      (c.open < b.open || (c.open == b.open && c.id != b.id && StringLe(c.id, b.id))))
  }

  /** best is what to choose among choices: an eligible one before every other. */
  ghost predicate IsBest(choices: set<Choice>, best: Choice) {
    best in choices && Eligible(best) && forall c :: c in choices && Eligible(c) && c != best ==> Before(best, c)
  }

  ghost predicate DistinctIds(choices: set<Choice>) {
    forall c, d :: c in choices && d in choices && c.id == d.id ==> c == d
  }

  lemma BeforeOrder(a: Choice, b: Choice, c: Choice)
    requires a.id != b.id
    ensures Before(a, b) || Before(b, a)
    ensures !(Before(a, b) && Before(b, a))
    ensures Before(a, b) && Before(b, c) ==> Before(a, c)
  {
    StringTotal(a.id, b.id);
    StringTotal(b.id, c.id);
    if StringLe(a.id, b.id) && StringLe(b.id, c.id) { StringTransitive(a.id, b.id, c.id); }
  }

  /** There is one best, whatever order the machines are listed in. */
  lemma OneBest(choices: set<Choice>, a: Choice, b: Choice)
    requires DistinctIds(choices) && IsBest(choices, a) && IsBest(choices, b)
    ensures a == b
  {
    if a != b { BeforeOrder(a, b, a); }
  }

  function SetOf(choices: seq<Choice>): set<Choice> { set c | c in choices }

  /** The best of the choices; none when none is eligible. */
  method ChooseMachine(choices: seq<Choice>) returns (best: Option<Choice>)
    requires DistinctIds(SetOf(choices))
    requires forall i, j :: 0 <= i < j < |choices| ==> choices[i] != choices[j]
    ensures best.Some? ==> IsBest(SetOf(choices), best.value)
    ensures best.None? ==> forall c :: c in choices ==> !Eligible(c)
  {
    var at := -1;
    for i := 0 to |choices|
      invariant -1 <= at < i
      invariant at < 0 ==> forall k :: 0 <= k < i ==> !Eligible(choices[k])
      invariant at >= 0 ==> Eligible(choices[at]) && forall k :: 0 <= k < i && k != at && Eligible(choices[k]) ==> Before(choices[at], choices[k])
    {
      var c := choices[i];
      if !c.online || c.paused || !c.can || c.open >= c.max {
        continue;
      }
      if at < 0 {
        at := i;
        continue;
      }
      var b := choices[at];
      assert b in SetOf(choices) && c in SetOf(choices);
      forall k | 0 <= k < i && k != at && Eligible(choices[k]) && Before(c, b) ensures Before(c, choices[k]) {
        BeforeOrder(c, b, choices[k]);
      }
      BeforeOrder(c, b, c);
      if c.priority > b.priority || (c.priority == b.priority && (c.open < b.open || (c.open == b.open && c.id != b.id && StringLe(c.id, b.id)))) {
        at := i;
      }
    }
    if at < 0 {
      return None;
    }
    return Some(choices[at]);
  }

  // --- The machines and their directives ---

  datatype Machine = Machine(user: string, priority: int, max: nat, maxLlm: nat, paused: bool, caps: set<string>, revoked: bool)

  datatype Status = Reserved | Running | Ended(how: string)

  datatype Directive = Directive(machine: string, llm: bool, run: string, key: string, status: Status)

  datatype Fleet = Fleet(machines: map<string, Machine>, directives: map<string, Directive>)

  predicate IsOpen(d: Directive) { !d.status.Ended? }

  /** A machine's open directives of a kind: coding runs and calls to the model are counted apart. */
  function Open(f: Fleet, m: string, llm: bool): set<string> {
    set id | id in f.directives && f.directives[id].machine == m && f.directives[id].llm == llm && IsOpen(f.directives[id])
  }

  datatype Request = Request(id: string, user: string, run: string, key: string, caps: set<string>, extra: set<string>)

  datatype Picked = Found(id: string) | Made(machine: string) | Lacks(machine: string) | NoMachine

  function ChoiceOf(f: Fleet, id: string, online: set<string>, caps: set<string>): Choice
    requires id in f.machines
  {
    var m := f.machines[id];
    Choice(id, m.priority, m.max, |Open(f, id, false)|, id in online, m.paused, caps <= m.caps)
  }

  ghost function Choices(f: Fleet, user: string, online: set<string>, caps: set<string>): set<Choice> {
    set id | id in f.machines && f.machines[id].user == user && !f.machines[id].revoked :: ChoiceOf(f, id, online, caps)
  }

  ghost predicate HasBest(choices: set<Choice>, id: string) { exists c :: IsBest(choices, c) && c.id == id }

  ghost predicate NoneEligible(choices: set<Choice>) { forall c :: c in choices ==> !Eligible(c) }

  /** The directive a call made. */
  predicate OfCall(f: Fleet, run: string, key: string, id: string) {
    id in f.directives && f.directives[id].run == run && f.directives[id].key == key
  }

  ghost predicate NoCall(f: Fleet, run: string, key: string) { forall id :: !OfCall(f, run, key, id) }

  function Add(f: Fleet, id: string, d: Directive): Fleet { f.(directives := f.directives[id := d]) }

  /** What a pick does: finds its call's directive, or reserves the best machine for a new one. */
  ghost predicate Picks(f: Fleet, req: Request, online: set<string>, out: Picked, g: Fleet) {
    match out
    case Found(id) => OfCall(f, req.run, req.key, id) && g == f
    case Made(m) =>
      && NoCall(f, req.run, req.key) && HasBest(Choices(f, req.user, online, req.caps + req.extra), m)
      && g == Add(f, req.id, Directive(m, false, req.run, req.key, Reserved))
    case Lacks(m) =>
      && NoCall(f, req.run, req.key) && NoneEligible(Choices(f, req.user, online, req.caps + req.extra))
      && req.extra != {} && HasBest(Choices(f, req.user, online, req.caps), m) && g == f
    case NoMachine =>
      && NoCall(f, req.run, req.key) && NoneEligible(Choices(f, req.user, online, req.caps + req.extra)) && g == f
      && (req.extra != {} ==> NoneEligible(Choices(f, req.user, online, req.caps)))
  }

  datatype Called = Created | Unavailable | Busy | Used

  const LLM := "llm"

  predicate LlmAvailable(f: Fleet, id: string, online: set<string>, aside: set<string>)
    requires id in f.machines
  {
    id in online && !f.machines[id].paused && LLM in f.machines[id].caps && id !in aside
  }

  /** What a call to the model does: a directive running at once on its machine, under its cap. */
  ghost predicate Calls(f: Fleet, req: Request, machine: string, online: set<string>, aside: set<string>, out: Called, g: Fleet) {
    var there := machine in f.machines && f.machines[machine].user == req.user && !f.machines[machine].revoked;
    match out
    case Created =>
      && there && NoCall(f, req.run, req.key) && LlmAvailable(f, machine, online, aside) && |Open(f, machine, true)| < f.machines[machine].maxLlm
      && g == Add(f, req.id, Directive(machine, true, req.run, req.key, Running))
    case Unavailable => g == f && (!there || (NoCall(f, req.run, req.key) && !LlmAvailable(f, machine, online, aside)))
    case Used => g == f && there && !NoCall(f, req.run, req.key)
    case Busy =>
      g == f && there && NoCall(f, req.run, req.key) && LlmAvailable(f, machine, online, aside) && |Open(f, machine, true)| >= f.machines[machine].maxLlm
  }

  datatype Event =
    | Pick(req: Request, online: set<string>, out: Picked)
    | Call(req: Request, machine: string, online: set<string>, aside: set<string>, called: Called)
    | Start(id: string)
    | End(id: string, how: string)
    | Enrol(m: string, row: Machine)
    | Change(m: string, row: Machine)
    | Revoke(m: string)

  ghost predicate Step(f: Fleet, e: Event, g: Fleet) {
    match e
    case Pick(req, online, out) => req.id !in f.directives && Picks(f, req, online, out, g)
    case Call(req, machine, online, aside, called) => req.id !in f.directives && Calls(f, req, machine, online, aside, called, g)
    case Start(id) =>
      g == if id in f.directives && f.directives[id].status == Reserved then Add(f, id, f.directives[id].(status := Running)) else f
    case End(id, how) =>
      g == if id in f.directives && IsOpen(f.directives[id]) then Add(f, id, f.directives[id].(status := Ended(how))) else f
    case Enrol(m, row) => m !in f.machines && !row.revoked && g == f.(machines := f.machines[m := row])
    // Paused or not, another priority, other capabilities: its caps as it announced them.
    case Change(m, row) => m in f.machines && SameCaps(f.machines[m], row) && row.revoked == f.machines[m].revoked && g == f.(machines := f.machines[m := row])
    case Revoke(m) => g == if m in f.machines then Revoked(f, m) else f
  }

  predicate SameCaps(a: Machine, b: Machine) { a.max == b.max && a.maxLlm == b.maxLlm }

  /** The machine revoked, its open directives with it. */
  function Revoked(f: Fleet, m: string): Fleet
    requires m in f.machines
  {
    Fleet(f.machines[m := f.machines[m].(revoked := true)],
      map id | id in f.directives :: if f.directives[id].machine == m && IsOpen(f.directives[id]) then f.directives[id].(status := Ended("revoked")) else f.directives[id])
  }

  /** A directive starts exactly when it is reserved, ends exactly when it is reserved or running, as told, and a
      machine revoked ends every one of its own that is; no other directive changes, and no machine. */
  lemma MovesMean(f: Fleet, e: Event, g: Fleet, id: string)
    requires Step(f, e, g) && id in f.directives && (e.Start? || e.End? || e.Revoke?)
    ensures g.directives.Keys == f.directives.Keys
    ensures var before, after := f.directives[id], g.directives[id];
      after == before.(status :=
        if e.Start? && e.id == id && before.status == Reserved then Running
        else if e.End? && e.id == id && before.status in {Reserved, Running} then Ended(e.how)
        else if e.Revoke? && e.m == before.machine && e.m in f.machines && before.status in {Reserved, Running} then Ended("revoked")
        else before.status)
    ensures !e.Revoke? ==> g.machines == f.machines
    ensures e.Revoke? && e.m in f.machines ==> g.machines == f.machines[e.m := f.machines[e.m].(revoked := true)]
  {
  }

  ghost predicate UnderCaps(f: Fleet) {
    forall m :: m in f.machines ==> |Open(f, m, false)| <= f.machines[m].max && |Open(f, m, true)| <= f.machines[m].maxLlm
  }

  ghost predicate OneACall(f: Fleet) {
    forall i, j :: i in f.directives && j in f.directives && f.directives[i].run == f.directives[j].run && f.directives[i].key == f.directives[j].key ==> i == j
  }

  ghost predicate OfMachines(f: Fleet) { forall id :: id in f.directives ==> f.directives[id].machine in f.machines }

  ghost predicate Inv(f: Fleet) { UnderCaps(f) && OneACall(f) && OfMachines(f) }

  /** A new directive counts on its own machine, among those of its kind. */
  lemma AddedCounts(f: Fleet, id: string, d: Directive, m: string, llm: bool)
    requires id !in f.directives && IsOpen(d)
    ensures Open(Add(f, id, d), m, llm) == Open(f, m, llm) + if d.machine == m && d.llm == llm then {id} else {}
  {
  }

  /** A directive that starts or ends adds to no count. */
  lemma MovedCounts(f: Fleet, id: string, status: Status, m: string, llm: bool)
    requires id in f.directives && (IsOpen(f.directives[id]) || status.Ended?)
    ensures |Open(Add(f, id, f.directives[id].(status := status)), m, llm)| <= |Open(f, m, llm)|
  {
    Fewer(Open(Add(f, id, f.directives[id].(status := status)), m, llm), Open(f, m, llm));
  }

  lemma AddOneACall(f: Fleet, id: string, d: Directive)
    requires OneACall(f) && NoCall(f, d.run, d.key)
    ensures OneACall(Add(f, id, d))
  {
    forall i | i in f.directives ensures !(f.directives[i].run == d.run && f.directives[i].key == d.key) {
      assert !OfCall(f, d.run, d.key, i);
    }
  }

  lemma AddKeeps(f: Fleet, id: string, d: Directive)
    requires Inv(f) && id !in f.directives && IsOpen(d) && NoCall(f, d.run, d.key) && d.machine in f.machines
    requires |Open(f, d.machine, d.llm)| < if d.llm then f.machines[d.machine].maxLlm else f.machines[d.machine].max
    ensures Inv(Add(f, id, d))
  {
    var g := Add(f, id, d);
    forall m | m in g.machines ensures |Open(g, m, false)| <= g.machines[m].max && |Open(g, m, true)| <= g.machines[m].maxLlm {
      AddedCounts(f, id, d, m, false);
      AddedCounts(f, id, d, m, true);
    }
    AddOneACall(f, id, d);
  }

  lemma MoveKeeps(f: Fleet, id: string, status: Status)
    requires Inv(f) && id in f.directives && (IsOpen(f.directives[id]) || status.Ended?)
    ensures Inv(Add(f, id, f.directives[id].(status := status)))
  {
    var g := Add(f, id, f.directives[id].(status := status));
    forall m | m in g.machines ensures |Open(g, m, false)| <= g.machines[m].max && |Open(g, m, true)| <= g.machines[m].maxLlm {
      MovedCounts(f, id, status, m, false);
      MovedCounts(f, id, status, m, true);
    }
  }

  lemma MachinesKeep(f: Fleet, e: Event, g: Fleet)
    requires Inv(f) && Step(f, e, g) && (e.Enrol? || e.Change?)
    ensures Inv(g)
  {
    forall m | m in g.machines ensures |Open(g, m, false)| <= g.machines[m].max && |Open(g, m, true)| <= g.machines[m].maxLlm {
      assert Open(g, m, false) == Open(f, m, false) && Open(g, m, true) == Open(f, m, true);
      if m !in f.machines { assert Open(f, m, false) == {} && Open(f, m, true) == {}; }
    }
  }

  lemma RevokedOpen(f: Fleet, m: string, k: string, llm: bool)
    requires m in f.machines
    ensures Open(Revoked(f, m), k, llm) == if k == m then {} else Open(f, k, llm)
  {
  }

  lemma RevokeKeeps(f: Fleet, m: string)
    requires Inv(f) && m in f.machines
    ensures Inv(Revoked(f, m))
  {
    var g := Revoked(f, m);
    assert UnderCaps(g) by {
      forall k | k in g.machines ensures |Open(g, k, false)| <= g.machines[k].max && |Open(g, k, true)| <= g.machines[k].maxLlm {
        RevokedOpen(f, m, k, false);
        RevokedOpen(f, m, k, true);
      }
    }
    assert OneACall(g) by {
      forall i | i in g.directives ensures i in f.directives && g.directives[i].run == f.directives[i].run && g.directives[i].key == f.directives[i].key {}
    }
  }

  lemma StepKeeps(f: Fleet, e: Event, g: Fleet)
    requires Inv(f) && Step(f, e, g)
    ensures Inv(g)
  {
    match e
    case Pick(req, online, out) =>
      if out.Made? {
        var c :| IsBest(Choices(f, req.user, online, req.caps + req.extra), c) && c.id == out.machine;
        AddKeeps(f, req.id, Directive(out.machine, false, req.run, req.key, Reserved));
      }
    case Call(req, machine, _, _, called) =>
      if called.Created? { AddKeeps(f, req.id, Directive(machine, true, req.run, req.key, Running)); }
    case Start(id) => if g != f { MoveKeeps(f, id, Running); }
    case End(id, how) => if g != f { MoveKeeps(f, id, Ended(how)); }
    case Enrol(_, _) => MachinesKeep(f, e, g);
    case Change(_, _) => MachinesKeep(f, e, g);
    case Revoke(m) => if m in f.machines { RevokeKeeps(f, m); }
  }

  ghost predicate Reaches(f: Fleet, steps: seq<(Event, Fleet)>, last: Fleet)
    decreases |steps|
  {
    if steps == [] then f == last else Step(f, steps[0].0, steps[0].1) && Reaches(steps[0].1, steps[1..], last)
  }

  const EMPTY := Fleet(map[], map[])

  lemma {:induction false} RunKeeps(f: Fleet, steps: seq<(Event, Fleet)>, last: Fleet)
    requires Inv(f) && Reaches(f, steps, last)
    ensures Inv(last)
    decreases |steps|
  {
    if steps != [] {
      StepKeeps(f, steps[0].0, steps[0].1);
      RunKeeps(steps[0].1, steps[1..], last);
    }
  }

  /** In every run, whoever picks and calls at once, whatever machines are enrolled, paused, changed and
      revoked: a machine's open coding directives never pass its cap of them, nor its open calls to the
      model theirs. */
  lemma CapsHold(steps: seq<(Event, Fleet)>, last: Fleet, m: string)
    requires Reaches(EMPTY, steps, last) && m in last.machines
    ensures |Open(last, m, false)| <= last.machines[m].max && |Open(last, m, true)| <= last.machines[m].maxLlm
  {
    RunKeeps(EMPTY, steps, last);
  }

  lemma StaysOne(f: Fleet, e: Event, g: Fleet, id: string)
    requires Step(f, e, g) && id in f.directives
    ensures id in g.directives
    ensures g.directives[id].(status := f.directives[id].status) == f.directives[id]
    ensures f.directives[id].status.Ended? ==> g.directives[id] == f.directives[id]
    ensures f.directives[id].status == Running ==> g.directives[id].status != Reserved
  {
  }

  /** Over every run: a directive stays its call's and its machine's, and once ended, ended as it was. */
  lemma {:induction false} DirectiveStays(f: Fleet, steps: seq<(Event, Fleet)>, last: Fleet, id: string)
    requires Reaches(f, steps, last) && id in f.directives
    ensures id in last.directives
    ensures last.directives[id].(status := f.directives[id].status) == f.directives[id]
    ensures f.directives[id].status.Ended? ==> last.directives[id] == f.directives[id]
    ensures f.directives[id].status == Running ==> last.directives[id].status != Reserved
    decreases |steps|
  {
    if steps != [] {
      StaysOne(f, steps[0].0, steps[0].1, id);
      DirectiveStays(steps[0].1, steps[1..], last, id);
    }
  }

  /** Over every run: a call has one directive; made again, its pick finds it, whatever became of it,
      and a call to the model made again is refused. */
  lemma PickedAgain(first: seq<(Event, Fleet)>, f: Fleet, steps: seq<(Event, Fleet)>, last: Fleet, id: string, req: Request, online: set<string>, out: Picked, g: Fleet)
    requires Reaches(EMPTY, first, f) && Reaches(f, steps, last) && OfCall(f, req.run, req.key, id)
    requires Step(last, Pick(req, online, out), g)
    ensures out == Found(id) && g == last
  {
    RunKeeps(EMPTY, first, f);
    RunKeeps(f, steps, last);
    DirectiveStays(f, steps, last, id);
    assert OfCall(last, req.run, req.key, id);
  }

  // --- What a machine picked is ---

  /** The coding directives a machine has open, reserved or running. */
  function CodingOpen(f: Fleet, m: string): set<string> {
    set id | id in f.directives && f.directives[id].machine == m && !f.directives[id].llm && f.directives[id].status in {Reserved, Running}
  }

  /** The machine is the user's, in use, online, not paused, has the capabilities, and has room. */
  predicate Ready(f: Fleet, m: string, user: string, online: set<string>, caps: set<string>) {
    && m in f.machines && f.machines[m].user == user && !f.machines[m].revoked && m in online && !f.machines[m].paused
    && (forall cap :: cap in caps ==> cap in f.machines[m].caps) && |CodingOpen(f, m)| < f.machines[m].max
  }

  /** m goes before o: its user put it higher; or as high, and it is less busy; or as busy, and it is first by ID. */
  predicate Preferred(f: Fleet, m: string, o: string)
    requires m in f.machines && o in f.machines
  {
    var (p, q, a, b) := (f.machines[m].priority, f.machines[o].priority, |CodingOpen(f, m)|, |CodingOpen(f, o)|);
    p > q || (p == q && a < b) || (p == q && a == b && StringLe(m, o))
  }

  /** A machine is offered as a choice that can be taken exactly when it is ready. */
  lemma OfferedWhenReady(f: Fleet, user: string, online: set<string>, caps: set<string>, m: string)
    ensures Ready(f, m, user, online, caps)
       <==> m in f.machines && ChoiceOf(f, m, online, caps) in Choices(f, user, online, caps) && Eligible(ChoiceOf(f, m, online, caps))
  {
    if m in f.machines {
      assert CodingOpen(f, m) == Open(f, m, false);
      if ChoiceOf(f, m, online, caps) in Choices(f, user, online, caps) {
        var id :| id in f.machines && f.machines[id].user == user && !f.machines[id].revoked && ChoiceOf(f, id, online, caps) == ChoiceOf(f, m, online, caps);
        assert id == m;
      }
    }
  }

  lemma BestIsReady(f: Fleet, user: string, online: set<string>, caps: set<string>, m: string)
    requires HasBest(Choices(f, user, online, caps), m)
    ensures Ready(f, m, user, online, caps)
    ensures forall o :: Ready(f, o, user, online, caps) ==> Preferred(f, m, o)
  {
    var all := Choices(f, user, online, caps);
    var c :| IsBest(all, c) && c.id == m;
    OfferedWhenReady(f, user, online, caps, m);
    forall o | Ready(f, o, user, online, caps) ensures Preferred(f, m, o) {
      OfferedWhenReady(f, user, online, caps, o);
      assert CodingOpen(f, m) == Open(f, m, false) && CodingOpen(f, o) == Open(f, o, false);
      if o == m { StringTotal(m, m); } else { assert Before(c, ChoiceOf(f, o, online, caps)); }
    }
  }

  lemma NoneIsReady(f: Fleet, user: string, online: set<string>, caps: set<string>)
    requires NoneEligible(Choices(f, user, online, caps))
    ensures forall m :: !Ready(f, m, user, online, caps)
  {
    forall m ensures !Ready(f, m, user, online, caps) { OfferedWhenReady(f, user, online, caps, m); }
  }

  lemma CallKnown(f: Fleet, run: string, key: string)
    ensures NoCall(f, run, key) <==> !exists id :: id in f.directives && f.directives[id].run == run && f.directives[id].key == key
  {
    if exists id :: id in f.directives && f.directives[id].run == run && f.directives[id].key == key {
      var id :| id in f.directives && f.directives[id].run == run && f.directives[id].key == key;
      assert OfCall(f, run, key, id);
    }
  }

  /** What a pick answers, in the fleet's own terms: the machine reserved is ready and before every other that
      is; none is answered exactly when none is ready; one said to lack the extra is ready but for it. */
  lemma PickMeans(f: Fleet, req: Request, online: set<string>, out: Picked, g: Fleet)
    requires Picks(f, req, online, out, g) && req.id !in f.directives
    ensures out.Made? ==>
      && Ready(f, out.machine, req.user, online, req.caps + req.extra)
      && (forall o :: Ready(f, o, req.user, online, req.caps + req.extra) ==> Preferred(f, out.machine, o))
      && g == f.(directives := f.directives[req.id := Directive(out.machine, false, req.run, req.key, Reserved)])
    ensures out.Lacks? ==>
      && g == f && (forall o :: !Ready(f, o, req.user, online, req.caps + req.extra))
      && Ready(f, out.machine, req.user, online, req.caps) && (forall o :: Ready(f, o, req.user, online, req.caps) ==> Preferred(f, out.machine, o))
    ensures out.NoMachine? ==> g == f && forall o :: !Ready(f, o, req.user, online, req.caps + req.extra)
    ensures out.NoMachine? ==> forall o :: !Ready(f, o, req.user, online, req.caps)
    ensures out.Found? ==> g == f && out.id in f.directives && f.directives[out.id].run == req.run && f.directives[out.id].key == req.key
    ensures (exists o :: Ready(f, o, req.user, online, req.caps + req.extra)) ==> out.Made? || out.Found?
    ensures out.Found? <==> exists id :: id in f.directives && f.directives[id].run == req.run && f.directives[id].key == req.key
  {
    CallKnown(f, req.run, req.key);
    match out
    case Found(_) =>
    case Made(m) => BestIsReady(f, req.user, online, req.caps + req.extra, m);
    case Lacks(m) =>
      NoneIsReady(f, req.user, online, req.caps + req.extra);
      BestIsReady(f, req.user, online, req.caps, m);
    case NoMachine =>
      NoneIsReady(f, req.user, online, req.caps + req.extra);
      if req.extra != {} { NoneIsReady(f, req.user, online, req.caps); } else { assert req.caps + req.extra == req.caps; }
  }

  // --- The turn's model ---

  /** A machine under its cap of calls; one at its cap, as the ones at theirs compare. */
  function LlmChoice(f: Fleet, id: string, full: bool): Choice
    requires id in f.machines
  {
    var m, open := f.machines[id], |Open(f, id, true)|;
    Choice(id, m.priority, if full then open + 1 else m.maxLlm, open, true, false, true)
  }

  predicate LlmOffered(f: Fleet, id: string, user: string, excluded: set<string>, online: set<string>, aside: set<string>) {
    id in f.machines && f.machines[id].user == user && !f.machines[id].revoked && id !in excluded && LlmAvailable(f, id, online, aside)
  }

  /** The machines of the user that can take a call to the model now, or once they have a slot. */
  ghost function LlmChoices(f: Fleet, user: string, excluded: set<string>, online: set<string>, aside: set<string>, full: bool): set<Choice> {
    set id | id in f.machines && LlmOffered(f, id, user, excluded, online, aside) && (full ==> f.machines[id].maxLlm > 0) :: LlmChoice(f, id, full)
  }

  /** The choices listed so far, the machines ids left to look at. */
  ghost predicate ListsLlm(f: Fleet, user: string, excluded: set<string>, online: set<string>, aside: set<string>, full: bool, ids: set<string>, choices: seq<Choice>) {
    && (forall i :: 0 <= i < |choices| ==> choices[i].id !in ids && choices[i] in LlmChoices(f, user, excluded, online, aside, full))
    && (forall i, j :: 0 <= i < j < |choices| ==> choices[i].id != choices[j].id)
    && (forall c :: c in LlmChoices(f, user, excluded, online, aside, full) && c.id !in ids ==> c in choices)
  }

  lemma ListsOne(f: Fleet, user: string, excluded: set<string>, online: set<string>, aside: set<string>, full: bool, ids: set<string>, choices: seq<Choice>, id: string)
    requires ListsLlm(f, user, excluded, online, aside, full, ids, choices) && id in ids && id in f.machines
    ensures ListsLlm(f, user, excluded, online, aside, full, ids - {id},
      if LlmOffered(f, id, user, excluded, online, aside) && (full ==> f.machines[id].maxLlm > 0) then choices + [LlmChoice(f, id, full)] else choices)
  {
    var all := LlmChoices(f, user, excluded, online, aside, full);
    var more := if LlmOffered(f, id, user, excluded, online, aside) && (full ==> f.machines[id].maxLlm > 0) then choices + [LlmChoice(f, id, full)] else choices;
    assert forall c :: c in all && c.id == id ==> c == LlmChoice(f, id, full);
    if more != choices {
      assert LlmChoice(f, id, full) in all && more[|choices|] == LlmChoice(f, id, full);
      forall c | c in all && c.id !in ids - {id} ensures c in more { if c.id != id { assert c in choices; } }
    }
  }

  lemma ListsAll(f: Fleet, user: string, excluded: set<string>, online: set<string>, aside: set<string>, full: bool, choices: seq<Choice>)
    requires ListsLlm(f, user, excluded, online, aside, full, {}, choices)
    ensures SetOf(choices) == LlmChoices(f, user, excluded, online, aside, full) && DistinctIds(SetOf(choices))
    ensures forall i, j :: 0 <= i < j < |choices| ==> choices[i] != choices[j]
  {
  }

  /** The best machine under its cap; the best of the busy ones only when there is none. */
  ghost predicate ChoosesLlm(f: Fleet, user: string, excluded: set<string>, online: set<string>, aside: set<string>, out: Option<string>) {
    var free, full := LlmChoices(f, user, excluded, online, aside, false), LlmChoices(f, user, excluded, online, aside, true);
    match out
    case Some(id) => HasBest(free, id) || (NoneEligible(free) && HasBest(full, id))
    case None => NoneEligible(free) && NoneEligible(full)
  }

  /** A turn with no machine to take has none with its model: a busy one would have been taken. */
  lemma NoneMeansNone(f: Fleet, user: string, excluded: set<string>, online: set<string>, aside: set<string>, id: string)
    requires ChoosesLlm(f, user, excluded, online, aside, None)
    requires id in f.machines && f.machines[id].user == user && !f.machines[id].revoked && id !in excluded && f.machines[id].maxLlm > 0
    ensures !LlmAvailable(f, id, online, aside)
  {
    if LlmAvailable(f, id, online, aside) {
      assert LlmChoice(f, id, true) in LlmChoices(f, user, excluded, online, aside, true);
      assert Eligible(LlmChoice(f, id, true));
    }
  }

  /** The calls to the model a machine has open. */
  function CallsOpen(f: Fleet, m: string): set<string> {
    set id | id in f.directives && f.directives[id].machine == m && f.directives[id].llm && f.directives[id].status in {Reserved, Running}
  }

  /** The machine can take a call to the model of the user's, once it has a slot: it has slots at all. */
  predicate Serves(f: Fleet, m: string, user: string, excluded: set<string>, online: set<string>, aside: set<string>) {
    && m in f.machines && f.machines[m].user == user && !f.machines[m].revoked && m !in excluded && m in online && m !in aside
    && !f.machines[m].paused && "llm" in f.machines[m].caps && f.machines[m].maxLlm > 0
  }

  predicate HasSlot(f: Fleet, m: string)
    requires m in f.machines
  {
    |CallsOpen(f, m)| < f.machines[m].maxLlm
  }

  predicate CallsPreferred(f: Fleet, m: string, o: string)
    requires m in f.machines && o in f.machines
  {
    var (p, q, a, b) := (f.machines[m].priority, f.machines[o].priority, |CallsOpen(f, m)|, |CallsOpen(f, o)|);
    p > q || (p == q && a < b) || (p == q && a == b && StringLe(m, o))
  }

  lemma ServesWhenOffered(f: Fleet, user: string, excluded: set<string>, online: set<string>, aside: set<string>, full: bool, m: string)
    ensures Serves(f, m, user, excluded, online, aside) && (full || HasSlot(f, m))
       <==> m in f.machines && LlmChoice(f, m, full) in LlmChoices(f, user, excluded, online, aside, full) && Eligible(LlmChoice(f, m, full))
  {
    if m in f.machines {
      assert CallsOpen(f, m) == Open(f, m, true);
      if LlmChoice(f, m, full) in LlmChoices(f, user, excluded, online, aside, full) {
        var id :| id in f.machines && LlmOffered(f, id, user, excluded, online, aside) && (full ==> f.machines[id].maxLlm > 0) && LlmChoice(f, id, full) == LlmChoice(f, m, full);
        assert id == m;
      }
    }
  }

  lemma BestServes(f: Fleet, user: string, excluded: set<string>, online: set<string>, aside: set<string>, full: bool, m: string)
    requires HasBest(LlmChoices(f, user, excluded, online, aside, full), m)
    ensures Serves(f, m, user, excluded, online, aside) && (full || HasSlot(f, m))
    ensures forall o :: Serves(f, o, user, excluded, online, aside) && (full || HasSlot(f, o)) ==> CallsPreferred(f, m, o)
  {
    var all := LlmChoices(f, user, excluded, online, aside, full);
    var c :| IsBest(all, c) && c.id == m;
    ServesWhenOffered(f, user, excluded, online, aside, full, m);
    forall o | Serves(f, o, user, excluded, online, aside) && (full || HasSlot(f, o)) ensures CallsPreferred(f, m, o) {
      ServesWhenOffered(f, user, excluded, online, aside, full, o);
      assert CallsOpen(f, m) == Open(f, m, true) && CallsOpen(f, o) == Open(f, o, true);
      if o == m { StringTotal(m, m); } else { assert Before(c, LlmChoice(f, o, full)); }
    }
  }

  lemma NoneServes(f: Fleet, user: string, excluded: set<string>, online: set<string>, aside: set<string>, full: bool)
    requires NoneEligible(LlmChoices(f, user, excluded, online, aside, full))
    ensures forall m :: !(Serves(f, m, user, excluded, online, aside) && (full || HasSlot(f, m)))
  {
    forall m ensures !(Serves(f, m, user, excluded, online, aside) && (full || HasSlot(f, m))) {
      ServesWhenOffered(f, user, excluded, online, aside, full, m);
    }
  }

  /** What a turn's model runs on, in the fleet's own terms: of the machines that serve, the first with a slot;
      with none free, the first of them all; none exactly when none serves. */
  lemma ChooseMeans(f: Fleet, user: string, excluded: set<string>, online: set<string>, aside: set<string>, out: Option<string>)
    requires ChoosesLlm(f, user, excluded, online, aside, out)
    ensures out.None? <==> forall m :: !Serves(f, m, user, excluded, online, aside)
    ensures out.Some? ==> Serves(f, out.value, user, excluded, online, aside)
    ensures out.Some? ==> forall o :: Serves(f, o, user, excluded, online, aside) && HasSlot(f, o) ==> HasSlot(f, out.value) && CallsPreferred(f, out.value, o)
    ensures out.Some? && !HasSlot(f, out.value) ==> forall o :: Serves(f, o, user, excluded, online, aside) ==> CallsPreferred(f, out.value, o)
  {
    match out
    case None => NoneServes(f, user, excluded, online, aside, true);
    case Some(m) =>
      if HasBest(LlmChoices(f, user, excluded, online, aside, false), m) {
        BestServes(f, user, excluded, online, aside, false, m);
      } else {
        NoneServes(f, user, excluded, online, aside, false);
        BestServes(f, user, excluded, online, aside, true, m);
      }
  }

  /** A call to the model is made exactly when its machine serves and has a slot, and its key is new; each other
      answer says which of these fails, in that order, and leaves the fleet. */
  lemma CallMeans(f: Fleet, req: Request, machine: string, online: set<string>, aside: set<string>, out: Called, g: Fleet)
    requires Calls(f, req, machine, online, aside, out, g) && req.id !in f.directives
    ensures var there := machine in f.machines && f.machines[machine].user == req.user && !f.machines[machine].revoked;
      var used := exists id :: id in f.directives && f.directives[id].run == req.run && f.directives[id].key == req.key;
      var offers := there && machine in online && machine !in aside && !f.machines[machine].paused && "llm" in f.machines[machine].caps;
      && (out == Created <==> offers && !used && HasSlot(f, machine))
      && (out == Used <==> there && used) && (out == Busy <==> offers && !used && !HasSlot(f, machine)) && (out == Unavailable <==> !there || (!used && !offers))
      && g == if out == Created then f.(directives := f.directives[req.id := Directive(machine, true, req.run, req.key, Running)]) else f
  {
    CallKnown(f, req.run, req.key);
    if machine in f.machines { assert CallsOpen(f, machine) == Open(f, machine, true); }
  }

  // --- The program's store ---

  class FleetStore {
    var machines: map<string, Machine>
    var directives: map<string, Directive>

    constructor ()
      ensures S() == Fleet(map[], map[])
    {
      machines, directives := map[], map[];
    }

    function S(): Fleet
      reads this
    {
      Fleet(machines, directives)
    }

    /** The directive a call made, if it made one. */
    method DirectiveOfCall(run: string, key: string) returns (id: Option<string>)
      ensures id.Some? ==> OfCall(S(), run, key, id.value)
      ensures id.None? ==> NoCall(S(), run, key)
    {
      var ids := directives.Keys;
      while ids != {}
        invariant ids <= directives.Keys
        invariant forall x :: OfCall(S(), run, key, x) ==> x in ids
        decreases ids
      {
        var x :| x in ids;
        if directives[x].run == run && directives[x].key == key {
          return Some(x);
        }
        ids := ids - {x};
      }
      return None;
    }

    /** A user's machines as choices, in any order. */
    method List(user: string, online: set<string>, caps: set<string>) returns (choices: seq<Choice>)
      ensures SetOf(choices) == Choices(S(), user, online, caps) && DistinctIds(SetOf(choices))
      ensures forall i, j :: 0 <= i < j < |choices| ==> choices[i] != choices[j]
    {
      choices := [];
      var ids := machines.Keys;
      while ids != {}
        invariant ids <= machines.Keys
        invariant forall i :: 0 <= i < |choices| ==> choices[i].id in machines && choices[i].id !in ids && choices[i] == ChoiceOf(S(), choices[i].id, online, caps)
        invariant forall i :: 0 <= i < |choices| ==> machines[choices[i].id].user == user && !machines[choices[i].id].revoked
        invariant forall i, j :: 0 <= i < j < |choices| ==> choices[i].id != choices[j].id
        invariant forall id :: id in machines && id !in ids && machines[id].user == user && !machines[id].revoked ==> ChoiceOf(S(), id, online, caps) in choices
        decreases ids
      {
        var id :| id in ids;
        if machines[id].user == user && !machines[id].revoked {
          choices := choices + [ChoiceOf(S(), id, online, caps)];
        }
        ids := ids - {id};
      }
    }

    /** Reserves a machine for a directive and creates it; a call made again finds its directive. */
    method PickMachine(req: Request, online: set<string>) returns (out: Picked)
      requires req.id !in directives
      modifies this
      ensures Picks(old(S()), req, online, out, S())
    {
      var existing := DirectiveOfCall(req.run, req.key);
      if existing.Some? {
        return Found(existing.value);
      }
      var choices := List(req.user, online, req.caps + req.extra);
      var chosen := ChooseMachine(choices);
      if chosen.None? && req.extra != {} {
        // The one that would have taken it without the extra.
        var others := List(req.user, online, req.caps);
        var lacking := ChooseMachine(others);
        if lacking.Some? {
          return Lacks(lacking.value.id);
        }
        assert forall c :: c in Choices(S(), req.user, online, req.caps) ==> c in SetOf(others);
      }
      if chosen.None? {
        assert forall c :: c in Choices(S(), req.user, online, req.caps + req.extra) ==> c in SetOf(choices);
        return NoMachine;
      }
      directives := directives[req.id := Directive(chosen.value.id, false, req.run, req.key, Reserved)];
      out := Made(chosen.value.id);
    }

    /** Creates a call to the model on the machine its turn chose, running at once. */
    method CreateLlmDirective(req: Request, machine: string, online: set<string>, aside: set<string>) returns (out: Called)
      requires req.id !in directives
      modifies this
      ensures Calls(old(S()), req, machine, online, aside, out, S())
    {
      if machine !in machines || machines[machine].user != req.user || machines[machine].revoked {
        return Unavailable;
      }
      var used := DirectiveOfCall(req.run, req.key);
      if used.Some? {
        return Used;
      }
      if !LlmAvailable(S(), machine, online, aside) {
        return Unavailable;
      }
      if |Open(S(), machine, true)| >= machines[machine].maxLlm {
        return Busy;
      }
      directives := directives[req.id := Directive(machine, true, req.run, req.key, Running)];
      out := Created;
    }

    /** The machines that can take a call to the model, as choices: those under their caps, and all as busy. */
    method ListLlm(user: string, excluded: set<string>, online: set<string>, aside: set<string>) returns (free: seq<Choice>, full: seq<Choice>)
      ensures SetOf(free) == LlmChoices(S(), user, excluded, online, aside, false) && DistinctIds(SetOf(free))
      ensures SetOf(full) == LlmChoices(S(), user, excluded, online, aside, true) && DistinctIds(SetOf(full))
      ensures forall i, j :: 0 <= i < j < |free| ==> free[i] != free[j]
      ensures forall i, j :: 0 <= i < j < |full| ==> full[i] != full[j]
    {
      free, full := [], [];
      var ids := machines.Keys;
      while ids != {}
        invariant ids <= machines.Keys
        invariant ListsLlm(S(), user, excluded, online, aside, false, ids, free)
        invariant ListsLlm(S(), user, excluded, online, aside, true, ids, full)
        decreases ids
      {
        var id :| id in ids;
        ListsOne(S(), user, excluded, online, aside, false, ids, free, id);
        ListsOne(S(), user, excluded, online, aside, true, ids, full, id);
        if LlmOffered(S(), id, user, excluded, online, aside) {
          var c := LlmChoice(S(), id, false);
          free := free + [c];
          if c.max > 0 {
            full := full + [c.(max := c.open + 1)]; // chosen among the full ones by priority, then load
          }
        }
        ids := ids - {id};
      }
      ListsAll(S(), user, excluded, online, aside, false, free);
      ListsAll(S(), user, excluded, online, aside, true, full);
    }

    /** The machine a turn's model runs on, nothing created. */
    method ChooseLlmMachine(user: string, excluded: set<string>, online: set<string>, aside: set<string>) returns (out: Option<string>)
      ensures ChoosesLlm(S(), user, excluded, online, aside, out)
    {
      var free, full := ListLlm(user, excluded, online, aside);
      var chosen := ChooseMachine(free);
      if chosen.Some? {
        return Some(chosen.value.id);
      }
      assert forall c :: c in LlmChoices(S(), user, excluded, online, aside, false) ==> c in SetOf(free);
      chosen := ChooseMachine(full);
      if chosen.Some? {
        return Some(chosen.value.id);
      }
      assert forall c :: c in LlmChoices(S(), user, excluded, online, aside, true) ==> c in SetOf(full);
      return None;
    }
  }
}
