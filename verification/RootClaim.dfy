/** The coding runs' root (activity/claude_code_sweep.go): which entries are runs', the claim each worker
    process holds on it, and what its sweep may remove. */
module RootClaim {
  import opened Text

  // --- The entries of runs ---

  const PREFIX := "run-"
  const COMPANIONS := [".claude", ".gitconfig", ".outputs", ".plugin", ".bundle", ".bin"]

  predicate EndsWith(s: string, suffix: string) { |suffix| <= |s| && s[|s| - |suffix|..] == suffix }

  function TrimSuffix(s: string, suffix: string): string {
    if EndsWith(s, suffix) then s[..|s| - |suffix|] else s
  }

  function TrimAll(s: string, suffixes: seq<string>): string
    decreases |suffixes|
  {
    if suffixes == [] then s else TrimAll(TrimSuffix(s, suffixes[0]), suffixes[1..])
  }

  /** name without the companions' suffixes is longer than PREFIX and begins with it. */
  predicate IsRunEntry(name: string) {
    var base := TrimAll(name, COMPANIONS);
    PREFIX <= base && |base| > |PREFIX|
  }

  /** What ends with a part that holds a dot holds one. */
  lemma DotEnds(s: string, suffix: string)
    ensures EndsWith(s, suffix) && '.' in suffix ==> '.' in s
  {
    if EndsWith(s, suffix) { assert s == s[..|s| - |suffix|] + suffix; }
  }

  lemma {:induction false} TrimNothing(s: string, suffixes: seq<string>)
    requires '.' !in s && forall i :: 0 <= i < |suffixes| ==> '.' in suffixes[i]
    ensures TrimAll(s, suffixes) == s
    decreases |suffixes|
  {
    if suffixes != [] {
      DotEnds(s, suffixes[0]);
      TrimNothing(s, suffixes[1..]);
    }
  }

  /** A dot, then none. */
  predicate Extension(c: string) { c != "" && c[0] == '.' && '.' !in c[1..] }

  lemma LastDot(s: string, c: string)
    requires Extension(c)
    ensures EndsWith(s, c) ==> LastIndexOf(s, '.') == |s| - |c|
  {
    if EndsWith(s, c) {
      var head := s[..|s| - |c|];
      assert s == head + c && c == ['.'] + c[1..];
      assert s == head + ['.'] + c[1..];
      LastIndexOfConcat(head, '.', c[1..]);
    }
  }

  /** A companion's name ends with no other companion's. */
  lemma OneCompanion(s: string, c: string, d: string)
    requires Extension(c) && Extension(d)
    ensures EndsWith(s + c, d) ==> c == d
  {
    LastDot(s + c, c);
    LastDot(s + c, d);
    assert EndsWith(s + c, c);
  }

  lemma {:induction false} TrimOne(s: string, suffixes: seq<string>, i: nat)
    requires '.' !in s && i < |suffixes| && forall k :: 0 <= k < |suffixes| ==> Extension(suffixes[k])
    requires forall k, l :: 0 <= k < l < |suffixes| ==> suffixes[k] != suffixes[l]
    ensures TrimAll(s + suffixes[i], suffixes) == s
    decreases |suffixes|
  {
    var t := s + suffixes[i];
    if i == 0 {
      assert TrimSuffix(t, suffixes[0]) == s;
      TrimNothing(s, suffixes[1..]);
    } else {
      OneCompanion(s, suffixes[i], suffixes[0]);
      TrimOne(s, suffixes[1..], i - 1);
    }
  }

  lemma CompanionsAreExtensions()
    ensures forall k :: 0 <= k < |COMPANIONS| ==> Extension(COMPANIONS[k])
    ensures forall k, l :: 0 <= k < l < |COMPANIONS| ==> COMPANIONS[k] != COMPANIONS[l]
  {
  }

  /** A run's workspace and every companion of it are entries of a run's. */
  lemma RunEntries(workspace: string, i: nat)
    requires PREFIX <= workspace && |workspace| > |PREFIX| && '.' !in workspace && i < |COMPANIONS|
    ensures IsRunEntry(workspace) && IsRunEntry(workspace + COMPANIONS[i])
  {
    CompanionsAreExtensions();
    TrimNothing(workspace, COMPANIONS);
    TrimOne(workspace, COMPANIONS, i);
  }

  /** The name ends as no companion does. */
  ghost predicate NoCompanion(name: string) { forall k :: 0 <= k < |COMPANIONS| ==> !EndsWith(name, COMPANIONS[k]) }

  lemma {:induction false} TrimNone(s: string, suffixes: seq<string>)
    requires forall i :: 0 <= i < |suffixes| ==> !EndsWith(s, suffixes[i])
    ensures TrimAll(s, suffixes) == s
    decreases |suffixes|
  {
    if suffixes != [] { TrimNone(s, suffixes[1..]); }
  }

  lemma {:induction false} TrimThat(s: string, suffixes: seq<string>, i: nat)
    requires i < |suffixes| && forall k :: 0 <= k < |suffixes| ==> Extension(suffixes[k]) && !EndsWith(s, suffixes[k])
    requires forall k, l :: 0 <= k < l < |suffixes| ==> suffixes[k] != suffixes[l]
    ensures TrimAll(s + suffixes[i], suffixes) == s
    decreases |suffixes|
  {
    if i == 0 {
      assert TrimSuffix(s + suffixes[0], suffixes[0]) == s;
      TrimNone(s, suffixes[1..]);
    } else {
      OneCompanion(s, suffixes[i], suffixes[0]);
      TrimThat(s, suffixes[1..], i - 1);
    }
  }

  /** A name is a run's entry exactly when it begins with "run-" and goes on, one companion's end aside. */
  lemma RunEntryMeans(base: string, i: nat)
    requires NoCompanion(base) && i < |COMPANIONS|
    ensures IsRunEntry(base) <==> "run-" <= base && |base| > 4
    ensures IsRunEntry(base + COMPANIONS[i]) <==> "run-" <= base && |base| > 4
  {
    CompanionsAreExtensions();
    TrimNone(base, COMPANIONS);
    TrimThat(base, COMPANIONS, i);
  }

  /** No name that does not begin as a run's is. */
  lemma OnlyRunEntries(name: string)
    requires IsRunEntry(name)
    ensures PREFIX <= name && |name| > |PREFIX|
  {
    TrimsAreBegun(name, COMPANIONS);
  }

  lemma {:induction false} TrimsAreBegun(s: string, suffixes: seq<string>)
    ensures TrimAll(s, suffixes) <= s
    decreases |suffixes|
  {
    if suffixes != [] {
      TrimsAreBegun(TrimSuffix(s, suffixes[0]), suffixes[1..]);
    }
  }

  // --- The sweep of a directory ---

  /** What a sweep removes: the runs' entries not modified after keepAfter; all of them when there is none. */
  predicate Stale(name: string, modified: int, keepAfter: Option<int>) {
    IsRunEntry(name) && (keepAfter.None? || modified <= keepAfter.value)
  }

  class Root {
    /** The entries, by name: when each was last modified. */
    var entries: map<string, int>

    constructor ()
      ensures entries == map[]
    {
      entries := map[];
    }

    /** Removes the stale entries of those listed, but the ones it fails to; some may be gone meanwhile. */
    method Sweep(listed: seq<string>, keepAfter: Option<int>, failing: set<string>) returns (removed: seq<string>)
      modifies this
      ensures entries == old(entries) - (set name | name in removed)
      ensures forall name :: name in removed <==>
        name in listed && name in old(entries) && Stale(name, old(entries)[name], keepAfter) && name !in failing
    {
      var stale: seq<string> := [];
      for i := 0 to |listed|
        invariant forall name :: name in stale <==> name in listed[..i] && name in entries && Stale(name, entries[name], keepAfter)
      {
        var name := listed[i];
        assert listed[..i + 1] == listed[..i] + [name];
        if !IsRunEntry(name) {
          continue;
        }
        if name !in entries {
          continue; // gone meanwhile
        }
        if keepAfter.Some? && entries[name] > keepAfter.value {
          continue;
        }
        stale := stale + [name];
      }
      assert listed[..|listed|] == listed;
      removed := [];
      for i := 0 to |stale|
        invariant entries == old(entries) - (set name | name in removed)
        invariant forall name :: name in removed <==> name in stale[..i] && name !in failing
      {
        var name := stale[i];
        assert stale[..i + 1] == stale[..i] + [name];
        if name in failing {
          continue;
        }
        entries := entries - {name};
        removed := removed + [name];
      }
      assert stale[..|stale|] == stale;
    }
  }

  // --- The claims of the worker processes ---

  /** How far a process came: about to claim; waiting for the lock shared, its sweep done or not; holding
      its claim; sweeping; swept; serving runs; ended. */
  datatype Phase = Claiming | Waiting(swept: bool) | Claimed | Sweeping(stale: map<string, int>, since: int) | Swept | Serving | Ended

  datatype Process = Process(phase: Phase, alone: bool)

  /** An entry of a run, of the process that runs or ran it. */
  datatype Entry = Entry(owner: nat, modified: int)

  /** An entry removed by a sweep: whether the sweeper was alone, whether the entry's process was live,
      when the sweep saw it last modified, when it last was, and a lifetime before the sweep. */
  datatype Removal = Removal(alone: bool, name: string, ownerLives: bool, seen: int, modified: int, since: int)

  /** The lock file's holders, and who did what. */
  datatype World = World(exclusive: Option<nat>, shared: set<nat>, procs: map<nat, Process>, entries: map<string, Entry>, removals: seq<Removal>)

  datatype Event =
    | Begin(p: nat)
    | TakeExclusive(p: nat)
    | WouldBlock(p: nat)
    | TakeShared(p: nat)
    | List(p: nat, now: int)
    | Remove(p: nat, name: string)
    | EndSweep(p: nat)
    | Convert(p: nat)
    | Serve(p: nat)
    | Create(p: nat, name: string, now: int)
    | Touch(name: string, now: int)
    | Finish(p: nat, name: string)
    | Die(p: nat)

  predicate Live(w: World, p: nat) { p in w.procs && !w.procs[p].phase.Ended? }

  predicate Serves(w: World, p: nat) { p in w.procs && w.procs[p].phase.Serving? }

  predicate Is(w: World, p: nat, phase: Phase) { p in w.procs && w.procs[p].phase == phase }

  predicate Enabled(w: World, e: Event) {
    match e
    case Begin(p) => p !in w.procs
    case TakeExclusive(p) => Is(w, p, Claiming) && w.exclusive == None && w.shared == {}
    case WouldBlock(p) => Is(w, p, Claiming) && !(w.exclusive == None && w.shared == {})
    case TakeShared(p) => p in w.procs && w.procs[p].phase.Waiting? && w.exclusive == None
    case List(p, _) => Is(w, p, Claimed)
    case Remove(p, name) => p in w.procs && w.procs[p].phase.Sweeping? && name in w.procs[p].phase.stale
    case EndSweep(p) => p in w.procs && w.procs[p].phase.Sweeping? && w.procs[p].phase.stale == map[]
    case Convert(p) => Is(w, p, Swept) && w.procs[p].alone
    case Serve(p) => Is(w, p, Swept) && !w.procs[p].alone
    case Create(p, name, _) => Serves(w, p) && IsRunEntry(name) && name !in w.entries
    case Touch(name, now) => name in w.entries && now >= w.entries[name].modified
    case Finish(p, name) => Serves(w, p) && name in w.entries && w.entries[name].owner == p
    case Die(p) => Live(w, p)
  }

  function Phased(w: World, p: nat, phase: Phase): map<nat, Process>
    requires p in w.procs
  {
    w.procs[p := w.procs[p].(phase := phase)]
  }

  /** What a process's sweep finds to remove: alone every run's entry, else those of a lifetime ago. */
  function ToRemove(w: World, alone: bool, since: int): map<string, int> {
    map name | name in w.entries && Stale(name, w.entries[name].modified, if alone then None else Some(since)) :: w.entries[name].modified
  }

  function Apply(w: World, e: Event, lifetime: int): World
    requires Enabled(w, e)
  {
    match e
    case Begin(p) => w.(procs := w.procs[p := Process(Claiming, false)])
    case TakeExclusive(p) => w.(exclusive := Some(p), procs := w.procs[p := Process(Claimed, true)])
    case WouldBlock(p) => w.(procs := Phased(w, p, Waiting(false)))
    case TakeShared(p) =>
      w.(shared := w.shared + {p}, procs := w.procs[p := Process(if w.procs[p].phase.swept then Swept else Claimed, false)])
    case List(p, now) =>
      w.(procs := Phased(w, p, Sweeping(ToRemove(w, w.procs[p].alone, now - lifetime), now - lifetime)))
    case Remove(p, name) =>
      var s := w.procs[p].phase;
      var v := w.(procs := Phased(w, p, s.(stale := s.stale - {name})), entries := w.entries - {name});
      if name in w.entries
        then v.(removals := w.removals + [Removal(w.procs[p].alone, name, Live(w, w.entries[name].owner), s.stale[name], w.entries[name].modified, s.since)])
        else v
    case EndSweep(p) => w.(procs := Phased(w, p, Swept))
    // The conversion is not atomic: the exclusive lock is gone before the shared one is taken, and
    // a conversion that fails leaves none.
    case Convert(p) => w.(exclusive := if w.exclusive == Some(p) then None else w.exclusive, procs := w.procs[p := Process(Waiting(true), false)])
    case Serve(p) => w.(procs := Phased(w, p, Serving))
    case Create(p, name, now) => w.(entries := w.entries[name := Entry(p, now)])
    case Touch(name, now) => w.(entries := w.entries[name := w.entries[name].(modified := now)])
    case Finish(p, name) => w.(entries := w.entries - {name})
    case Die(p) =>
      w.(procs := Phased(w, p, Ended), shared := w.shared - {p}, exclusive := if w.exclusive == Some(p) then None else w.exclusive)
  }
  // --- What every run keeps ---

  /** What a process's phase says of the lock: alone until it gives it up, it holds it exclusively; past
      its claim otherwise, it holds it shared. */
  predicate HoldsOk(w: World, p: nat, q: Process) {
    && (q.phase.Claimed? || q.phase.Sweeping? || q.phase.Swept? ==> if q.alone then w.exclusive == Some(p) else p in w.shared)
    && (q.phase.Serving? ==> p in w.shared)
  }

  /** What a sweep is about to remove. */
  predicate StaleOk(q: Process) {
    q.phase.Sweeping? ==> forall name :: name in q.phase.stale ==> IsRunEntry(name) && (q.alone || q.phase.stale[name] <= q.phase.since)
  }

  predicate ProcOk(w: World, p: nat, q: Process) { HoldsOk(w, p, q) && StaleOk(q) }

  ghost predicate Inv(w: World) {
    && (w.exclusive.Some? ==> w.shared == {})
    && (forall p :: p in w.procs ==> ProcOk(w, p, w.procs[p]))
    && (forall i :: 0 <= i < |w.removals| ==> RemovalOk(w.removals[i]))
    && (forall name :: name in w.entries && Live(w, w.entries[name].owner) ==> Serves(w, w.entries[name].owner))
    && (forall name :: name in w.entries ==> w.entries[name].owner in w.procs)
  }

  predicate RemovalOk(r: Removal) {
    IsRunEntry(r.name) && (if r.alone then !r.ownerLives else r.seen <= r.since)
  }

  lemma HoldsKept(w: World, e: Event, lifetime: int, p: nat)
    requires (w.exclusive.Some? ==> w.shared == {}) && Enabled(w, e) && p in Apply(w, e, lifetime).procs
    requires p in w.procs ==> HoldsOk(w, p, w.procs[p])
    ensures HoldsOk(Apply(w, e, lifetime), p, Apply(w, e, lifetime).procs[p])
  {
  }

  lemma StaleKept(w: World, e: Event, lifetime: int, p: nat)
    requires Enabled(w, e) && p in Apply(w, e, lifetime).procs && (p in w.procs ==> StaleOk(w.procs[p]))
    ensures StaleOk(Apply(w, e, lifetime).procs[p])
  {
  }

  /** While a process sweeps alone, none serves. */
  lemma AloneExcludes(w: World, p: nat, q: nat)
    requires Inv(w) && p in w.procs && w.procs[p].alone && w.procs[p].phase.Sweeping?
    ensures !Serves(w, q)
  {
    assert ProcOk(w, p, w.procs[p]);
    if q in w.procs { assert ProcOk(w, q, w.procs[q]); }
  }
  lemma RemovalsKept(w: World, e: Event, lifetime: int)
    requires Inv(w) && Enabled(w, e) && e.Remove?
    ensures forall i :: 0 <= i < |Apply(w, e, lifetime).removals| ==> RemovalOk(Apply(w, e, lifetime).removals[i])
  {
    assert ProcOk(w, e.p, w.procs[e.p]);
    if e.name in w.entries && w.procs[e.p].alone { AloneExcludes(w, e.p, w.entries[e.name].owner); }
  }

  lemma LockKept(w: World, e: Event, lifetime: int)
    requires (w.exclusive.Some? ==> w.shared == {}) && Enabled(w, e)
    ensures var r := Apply(w, e, lifetime); r.exclusive.Some? ==> r.shared == {}
  {
  }

  lemma EntriesKept(w: World, e: Event, lifetime: int, name: string)
    requires Enabled(w, e) && name in Apply(w, e, lifetime).entries
    requires name in w.entries ==> w.entries[name].owner in w.procs && (Live(w, w.entries[name].owner) ==> Serves(w, w.entries[name].owner))
    ensures var r := Apply(w, e, lifetime);
      r.entries[name].owner in r.procs && (Live(r, r.entries[name].owner) ==> Serves(r, r.entries[name].owner))
  {
  }

  lemma StepKeeps(w: World, e: Event, lifetime: int)
    requires Inv(w) && Enabled(w, e)
    ensures Inv(Apply(w, e, lifetime))
  {
    var r := Apply(w, e, lifetime);
    LockKept(w, e, lifetime);
    forall p | p in r.procs ensures ProcOk(r, p, r.procs[p]) {
      if p in w.procs { assert ProcOk(w, p, w.procs[p]); }
      HoldsKept(w, e, lifetime, p);
      StaleKept(w, e, lifetime, p);
    }
    forall name | name in r.entries
      ensures r.entries[name].owner in r.procs && (Live(r, r.entries[name].owner) ==> Serves(r, r.entries[name].owner))
    {
      EntriesKept(w, e, lifetime, name);
    }
    if e.Remove? { RemovalsKept(w, e, lifetime); } else { assert r.removals == w.removals; }
  }

  ghost predicate Reaches(w: World, events: seq<Event>, last: World, lifetime: int)
    decreases |events|
  {
    if events == [] then w == last else Enabled(w, events[0]) && Reaches(Apply(w, events[0], lifetime), events[1..], last, lifetime)
  }

  const EMPTY := World(None, {}, map[], map[], [])

  lemma {:induction false} RunKeeps(w: World, events: seq<Event>, last: World, lifetime: int)
    requires Inv(w) && Reaches(w, events, last, lifetime)
    ensures Inv(last)
    decreases |events|
  {
    if events != [] {
      StepKeeps(w, events[0], lifetime);
      RunKeeps(Apply(w, events[0], lifetime), events[1..], last, lifetime);
    }
  }

  /** Over every run of processes claiming, sweeping, converting their claims, serving and dying: a sweep
      removes runs' entries only; alone, none of a live process; else, only what it saw not modified for a
      lifetime. */
  lemma SweepsAreSafe(events: seq<Event>, last: World, lifetime: int, i: nat)
    requires Reaches(EMPTY, events, last, lifetime) && i < |last.removals|
    ensures IsRunEntry(last.removals[i].name)
    ensures last.removals[i].alone ==> !last.removals[i].ownerLives
    ensures !last.removals[i].alone ==> last.removals[i].seen <= last.removals[i].since
  {
    RunKeeps(EMPTY, events, last, lifetime);
    assert RemovalOk(last.removals[i]);
  }

  /** Over every run: a process that holds the root exclusively excludes every other that has started
      runs, the gap of a conversion included. */
  lemma ExclusiveExcludes(events: seq<Event>, last: World, lifetime: int, p: nat, q: nat)
    requires Reaches(EMPTY, events, last, lifetime) && last.exclusive == Some(p)
    ensures !Serves(last, q)
    ensures forall name :: name in last.entries ==> !Live(last, last.entries[name].owner)
  {
    RunKeeps(EMPTY, events, last, lifetime);
    forall o ensures !Serves(last, o) {
      if o in last.procs { assert ProcOk(last, o, last.procs[o]); }
    }
  }

  // --- Who claims alone ---

  /** A process about to claim is alone exactly when nobody holds the root; else it waits to share it, as it does when it
      gives up being alone, until nobody is; swept or not, it goes on from where it was. */
  lemma ClaimMeans(w: World, p: nat, lifetime: int)
    requires p in w.procs
    ensures w.procs[p].phase.Claiming? ==> (Enabled(w, TakeExclusive(p)) <==> w.exclusive == None && w.shared == {})
    ensures w.procs[p].phase.Claiming? ==> (Enabled(w, WouldBlock(p)) <==> !Enabled(w, TakeExclusive(p)))
    ensures w.procs[p].phase.Waiting? ==> (Enabled(w, TakeShared(p)) <==> w.exclusive == None)
    ensures Enabled(w, TakeShared(p)) ==> Apply(w, TakeShared(p), lifetime).procs[p].phase == if w.procs[p].phase.swept then Swept else Claimed
    ensures w.procs[p].phase.Swept? ==> (Enabled(w, Convert(p)) <==> w.procs[p].alone) && (Enabled(w, Serve(p)) <==> !w.procs[p].alone)
  {
  }

  // --- What a sweep takes ---

  /** A sweep sets out to remove, of the runs' entries, all when it is alone, else those not modified for a lifetime. */
  lemma ListsExactly(w: World, p: nat, now: int, lifetime: int, name: string)
    requires Enabled(w, List(p, now))
    ensures var s := Apply(w, List(p, now), lifetime).procs[p].phase;
      && s.Sweeping? && (name in s.stale <==> name in w.entries && IsRunEntry(name) && (w.procs[p].alone || w.entries[name].modified <= now - lifetime))
      && (name in s.stale ==> s.stale[name] == w.entries[name].modified)
  {
  }

  predicate Sweeps(w: World, p: nat, name: string) { p in w.procs && w.procs[p].phase.Sweeping? && name in w.procs[p].phase.stale }

  predicate Over(w: World, p: nat) { p in w.procs && w.procs[p].phase.Ended? }

  lemma SweepsOn(w: World, e: Event, lifetime: int, p: nat, name: string)
    requires Enabled(w, e) && Sweeps(w, p, name)
    ensures var r := Apply(w, e, lifetime); Sweeps(r, p, name) || Over(r, p) || name !in r.entries
  {
  }

  lemma {:induction false} StaysOver(w: World, events: seq<Event>, last: World, lifetime: int, p: nat)
    requires Reaches(w, events, last, lifetime) && Over(w, p)
    ensures Over(last, p)
    decreases |events|
  {
    if events != [] { StaysOver(Apply(w, events[0], lifetime), events[1..], last, lifetime, p); }
  }

  /** Over every run: a process past its sweep has seen each entry it set out to remove gone. */
  lemma {:induction false} SweepTakesAll(w: World, events: seq<Event>, last: World, lifetime: int, p: nat, name: string) returns (k: nat, mid: World)
    requires Reaches(w, events, last, lifetime) && Sweeps(w, p, name) && !Sweeps(last, p, name) && !Over(last, p)
    ensures k <= |events| && Reaches(w, events[..k], mid, lifetime) && name !in mid.entries && Reaches(mid, events[k..], last, lifetime)
    decreases |events|
  {
    var r := Apply(w, events[0], lifetime);
    SweepsOn(w, events[0], lifetime, p, name);
    if name !in r.entries {
      k, mid := 1, r;
      assert events[..1][1..] == [];
    } else {
      if Over(r, p) { StaysOver(r, events[1..], last, lifetime, p); }
      var j, m := SweepTakesAll(r, events[1..], last, lifetime, p, name);
      k, mid := j + 1, m;
      assert events[..k][1..] == events[1..][..j] && events[k..] == events[1..][j..];
    }
  }

  // --- What a sharing sweep removes, exactly ---

  /** It was not modified for a lifetime when it was removed. */
  predicate OldEnough(r: Removal) { r.alone || r.modified <= r.since }

  ghost predicate AllOld(w: World) { forall i :: 0 <= i < |w.removals| ==> OldEnough(w.removals[i]) }

  /** A sharing sweep removes an entry modified since a lifetime before it: between its look and its removal. */
  predicate RemovesYoung(w: World, e: Event)
    requires Enabled(w, e)
  {
    e.Remove? && e.name in w.entries && !w.procs[e.p].alone && w.entries[e.name].modified > w.procs[e.p].phase.since
  }

  /** A step removes entries older than the lifetime only if and only if it is not that; and then the entry
      was modified after the sweep looked at it. */
  lemma OldExactlyWhen(w: World, e: Event, lifetime: int)
    requires Inv(w) && AllOld(w) && Enabled(w, e)
    ensures AllOld(Apply(w, e, lifetime)) <==> !RemovesYoung(w, e)
    ensures RemovesYoung(w, e) ==> w.entries[e.name].modified > w.procs[e.p].phase.stale[e.name]
  {
    var r := Apply(w, e, lifetime);
    if e.Remove? {
      assert ProcOk(w, e.p, w.procs[e.p]);
      if e.name in w.entries {
        var n := |w.removals|;
        assert r.removals[n].modified == w.entries[e.name].modified && r.removals[n].alone == w.procs[e.p].alone;
        assert forall i :: 0 <= i < n ==> r.removals[i] == w.removals[i];
      }
    } else {
      assert r.removals == w.removals;
    }
  }

  // --- A run that removes a live run's entry just modified ---

  const N := PREFIX + "x"
  const LIFETIME := 10

  const TOUCHED := [
    Begin(0), TakeExclusive(0), List(0, 0), EndSweep(0), Convert(0), TakeShared(0), Serve(0), Create(0, N, 0),
    Begin(1), WouldBlock(1), TakeShared(1), List(1, 10), Touch(N, 11), Remove(1, N)]

  function TimeOf(e: Event): Option<int> {
    match e
    case List(_, now) => Some(now)
    case Create(_, _, now) => Some(now)
    case Touch(_, now) => Some(now)
    case _ => None
  }

  /** The clock does not go back. */
  predicate Forward(events: seq<Event>) {
    forall i, j :: 0 <= i < j < |events| && TimeOf(events[i]).Some? && TimeOf(events[j]).Some? ==> TimeOf(events[i]).value <= TimeOf(events[j]).value
  }

  ghost predicate Leads(w: World, e: Event, next: World) { Enabled(w, e) && Apply(w, e, LIFETIME) == next }

  lemma Onward(k: nat, w: World, next: World, last: World)
    requires k < |TOUCHED| && Leads(w, TOUCHED[k], next) && Reaches(next, TOUCHED[k + 1..], last, LIFETIME)
    ensures Reaches(w, TOUCHED[k..], last, LIFETIME)
  {
    assert TOUCHED[k..][1..] == TOUCHED[k + 1..];
  }

  /** One process, alone. */
  function First(exclusive: Option<nat>, shared: set<nat>, phase: Phase, alone: bool): World {
    World(exclusive, shared, map[0 := Process(phase, alone)], map[], [])
  }

  /** The first one serving, a run's entry of its own, and a second. */
  function Both(shared: set<nat>, modified: int, phase: Phase): World {
    World(None, shared, map[0 := Process(Serving, false), 1 := Process(phase, false)], map[N := Entry(0, modified)], [])
  }

  const SERVING := World(None, {0}, map[0 := Process(Serving, false)], map[N := Entry(0, 0)], [])
  const LAST := World(None, {0, 1}, map[0 := Process(Serving, false), 1 := Process(Sweeping(map[], 0), false)], map[],
    [Removal(false, N, true, 0, 11, 0)])

  lemma NIsRuns()
    ensures IsRunEntry(N)
  {
    RunEntries(N, 0);
  }

  lemma Claims()
    ensures Leads(EMPTY, TOUCHED[0], First(None, {}, Claiming, false))
    ensures Leads(First(None, {}, Claiming, false), TOUCHED[1], First(Some(0), {}, Claimed, true))
  {
  }

  lemma SweepsAlone()
    ensures Leads(First(Some(0), {}, Claimed, true), TOUCHED[2], First(Some(0), {}, Sweeping(map[], -10), true))
    ensures Leads(First(Some(0), {}, Sweeping(map[], -10), true), TOUCHED[3], First(Some(0), {}, Swept, true))
  {
    assert ToRemove(First(Some(0), {}, Claimed, true), true, -10) == map[];
  }

  lemma Shares()
    ensures Leads(First(Some(0), {}, Swept, true), TOUCHED[4], First(None, {}, Waiting(true), false))
    ensures Leads(First(None, {}, Waiting(true), false), TOUCHED[5], First(None, {0}, Swept, false))
  {
    assert {} + {0} == {0};
  }

  lemma StartsRuns()
    ensures Leads(First(None, {0}, Swept, false), TOUCHED[6], First(None, {0}, Serving, false))
    ensures Leads(First(None, {0}, Serving, false), TOUCHED[7], SERVING)
  {
    NIsRuns();
  }

  lemma Comes()
    ensures Leads(SERVING, TOUCHED[8], Both({0}, 0, Claiming))
    ensures Leads(Both({0}, 0, Claiming), TOUCHED[9], Both({0}, 0, Waiting(false)))
  {
  }

  lemma SharesToo()
    ensures Leads(Both({0}, 0, Waiting(false)), TOUCHED[10], Both({0, 1}, 0, Claimed))
  {
    assert {0} + {1} == {0, 1};
  }

  lemma Looks()
    ensures Leads(Both({0, 1}, 0, Claimed), TOUCHED[11], Both({0, 1}, 0, Sweeping(map[N := 0], 0)))
  {
    NIsRuns();
    assert ToRemove(Both({0, 1}, 0, Claimed), false, 0) == map[N := 0];
  }

  lemma Modifies()
    ensures Leads(Both({0, 1}, 0, Sweeping(map[N := 0], 0)), TOUCHED[12], Both({0, 1}, 11, Sweeping(map[N := 0], 0)))
  {
  }

  lemma Removes()
    ensures Leads(Both({0, 1}, 11, Sweeping(map[N := 0], 0)), TOUCHED[13], LAST)
  {
    assert map[N := 0] - {N} == map[];
    assert map[N := Entry(0, 11)] - {N} == map[];
    var w := Both({0, 1}, 11, Sweeping(map[N := 0], 0));
    assert w.removals + [Removal(false, N, true, 0, 11, 0)] == LAST.removals;
  }

  lemma SecondSweeps()
    ensures Reaches(Both({0, 1}, 0, Claimed), TOUCHED[11..], LAST, LIFETIME)
  {
    assert TOUCHED[14..] == [];
    Removes();
    Onward(13, Both({0, 1}, 11, Sweeping(map[N := 0], 0)), LAST, LAST);
    Modifies();
    Onward(12, Both({0, 1}, 0, Sweeping(map[N := 0], 0)), Both({0, 1}, 11, Sweeping(map[N := 0], 0)), LAST);
    Looks();
    Onward(11, Both({0, 1}, 0, Claimed), Both({0, 1}, 0, Sweeping(map[N := 0], 0)), LAST);
  }

  lemma SecondShares()
    ensures Reaches(Both({0}, 0, Waiting(false)), TOUCHED[10..], LAST, LIFETIME)
  {
    SecondSweeps();
    SharesToo();
    Onward(10, Both({0}, 0, Waiting(false)), Both({0, 1}, 0, Claimed), LAST);
  }

  lemma SecondComes()
    ensures Reaches(SERVING, TOUCHED[8..], LAST, LIFETIME)
  {
    SecondShares();
    Comes();
    Onward(9, Both({0}, 0, Claiming), Both({0}, 0, Waiting(false)), LAST);
    Onward(8, SERVING, Both({0}, 0, Claiming), LAST);
  }

  lemma FirstServes()
    ensures Reaches(First(None, {0}, Swept, false), TOUCHED[6..], LAST, LIFETIME)
  {
    SecondComes();
    StartsRuns();
    Onward(7, First(None, {0}, Serving, false), SERVING, LAST);
    Onward(6, First(None, {0}, Swept, false), First(None, {0}, Serving, false), LAST);
  }

  lemma FirstShares()
    ensures Reaches(First(Some(0), {}, Sweeping(map[], -10), true), TOUCHED[3..], LAST, LIFETIME)
  {
    FirstServes();
    Shares();
    Onward(5, First(None, {}, Waiting(true), false), First(None, {0}, Swept, false), LAST);
    Onward(4, First(Some(0), {}, Swept, true), First(None, {}, Waiting(true), false), LAST);
    SweepsAlone();
    Onward(3, First(Some(0), {}, Sweeping(map[], -10), true), First(Some(0), {}, Swept, true), LAST);
  }

  lemma FirstSweeps()
    ensures Reaches(First(None, {}, Claiming, false), TOUCHED[1..], LAST, LIFETIME)
  {
    FirstShares();
    SweepsAlone();
    Onward(2, First(Some(0), {}, Claimed, true), First(Some(0), {}, Sweeping(map[], -10), true), LAST);
    Claims();
    Onward(1, First(None, {}, Claiming, false), First(Some(0), {}, Claimed, true), LAST);
  }

  lemma FirstClaims()
    ensures Reaches(EMPTY, TOUCHED, LAST, LIFETIME)
  {
    FirstSweeps();
    Claims();
    Onward(0, EMPTY, First(None, {}, Claiming, false), LAST);
    assert TOUCHED[0..] == TOUCHED;
  }

  lemma GoesForward()
    ensures Forward(TOUCHED)
  {
    var times := [None, None, Some(0), None, None, None, None, Some(0), None, None, None, Some(10), Some(11), None];
    assert forall i :: 0 <= i < |TOUCHED| ==> TimeOf(TOUCHED[i]) == times[i];
  }

  lemma LastIsYoung()
    ensures LAST.removals != [] && LAST.removals[0].ownerLives && !OldEnough(LAST.removals[0])
  {
  }

  /** A process sharing the root removes an entry of a live one's run, modified between its look and its
      removal. */
  lemma RemovedYoung()
    ensures Forward(TOUCHED)
    ensures exists last :: Reaches(EMPTY, TOUCHED, last, LIFETIME) && last.removals != [] && last.removals[0].ownerLives && !OldEnough(last.removals[0])
  {
    GoesForward();
    FirstClaims();
    LastIsYoung();
  }
}
