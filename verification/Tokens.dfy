/** A machine's token and its rotation in two steps (store/machine.go): what the store keeps of it,
    whoever presents which copy of it. Tokens stand for their hashes; "" is no token. */
module Tokens {
  datatype Rotation = Rotation(current: string, prev: string, retire: seq<string>, ok: bool)

  /** next becomes current; the token presented stays beside it, and the other of the two, if any, is retired. */
  function RotateTokens(current: string, prev: string, presented: string, next: string): Rotation {
    if presented == "" then Rotation(current, prev, [], false)
    else if presented == current && prev == "" then Rotation(next, current, [], true)
    else if presented == current then Rotation(next, current, [prev], true)
    else if presented == prev then Rotation(next, prev, [current], true)
    else Rotation(current, prev, [], false)
  }

  /** Only the current token confirms: the previous one is then retired, and there is none. */
  function ConfirmToken(current: string, prev: string, presented: string): Rotation {
    if presented == "" || presented != current then Rotation(current, prev, [], false)
    else Rotation(current, "", if prev == "" then [] else [prev], true)
  }

  datatype Row = Row(current: string, prev: string, revoked: bool)

  datatype Store = Store(machines: map<string, Row>, retired: map<string, string>)

  datatype Use = Unknown | Current(id: string) | Pending(id: string) | Retired(id: string)

  datatype Outcome = Done | Refused | NotFound

  function Retire(retired: map<string, string>, id: string, hashes: seq<string>): map<string, string> {
    if hashes == [] then retired else
    var rest := Retire(retired, id, hashes[..|hashes| - 1]);
    var h := hashes[|hashes| - 1];
    if h == "" || h in rest then rest else rest[h := id]
  }

  predicate Holds(st: Store, id: string, h: string) {
    id in st.machines && h != "" && (st.machines[id].current == h || st.machines[id].prev == h)
  }

  function Rotated(st: Store, id: string, presented: string, next: string): (Store, Outcome) {
    if id !in st.machines || st.machines[id].revoked then (st, Refused) else
    var r := RotateTokens(st.machines[id].current, st.machines[id].prev, presented, next);
    if !r.ok then (st, Refused)
    else (Store(st.machines[id := Row(r.current, r.prev, false)], Retire(st.retired, id, r.retire)), Done)
  }

  function Confirmed(st: Store, id: string, h: string): (Store, Outcome) {
    if id !in st.machines || st.machines[id].revoked then (st, Refused) else
    var r := ConfirmToken(st.machines[id].current, st.machines[id].prev, h);
    if !r.ok then (st, Refused)
    else (Store(st.machines[id := Row(r.current, r.prev, false)], Retire(st.retired, id, r.retire)), Done)
  }

  function Revoked(st: Store, id: string): (Store, Outcome) {
    if id !in st.machines then (st, NotFound)
    else if st.machines[id].revoked then (st, Done)
    else (Store(st.machines[id := Row("", "", true)], Retire(st.retired, id, [st.machines[id].current, st.machines[id].prev])), Done)
  }

  // --- Any run: anyone presents, confirms and revokes anything ---

  /** What happens to the store. A token given was never given before. */
  datatype Event =
    | Enroll(id: string, token: string)
    | Rotate(id: string, presented: string, next: string)
    | Confirm(id: string, token: string)
    | Revoke(id: string)
    | Present(token: string)

  /** The store, every token ever given, and the one each was given for. */
  datatype World = World(st: Store, issued: set<string>, parent: map<string, string>)

  predicate Enabled(w: World, e: Event) {
    match e
    case Enroll(id, token) => id !in w.st.machines && token != "" && token !in w.issued
    case Rotate(id, presented, next) => next != "" && next !in w.issued
    case _ => true
  }

  /** What a token is, and to which machine; the store answers by it alone. */
  ghost predicate IsUse(st: Store, h: string, use: Use) {
    match use
    case Current(id) => id in st.machines && h != "" && st.machines[id].current == h
    case Pending(id) => id in st.machines && h != "" && st.machines[id].prev == h && st.machines[id].current != h
    case Retired(id) => h in st.retired && st.retired[h] == id && forall other :: !Holds(st, other, h)
    case Unknown => h !in st.retired && forall other :: !Holds(st, other, h)
  }

  /** A retired token presented revokes its machine; any other presentation changes nothing. */
  function Presented(st: Store, h: string): Store {
    if h in st.retired then Revoked(st, st.retired[h]).0 else st
  }

  function Apply(w: World, e: Event): World {
    match e
    case Enroll(id, token) =>
      World(w.st.(machines := w.st.machines[id := Row(token, "", false)]), w.issued + {token}, w.parent)
    case Rotate(id, presented, next) =>
      var (st, out) := Rotated(w.st, id, presented, next);
      if out == Done then World(st, w.issued + {next}, w.parent[next := presented]) else w.(st := st)
    case Confirm(id, token) => w.(st := Confirmed(w.st, id, token).0)
    case Revoke(id) => w.(st := Revoked(w.st, id).0)
    case Present(token) => w.(st := Presented(w.st, token))
  }

  /** The current token of a machine in use was given for the one pending beside it. */
  predicate RowOk(m: Row, parent: map<string, string>) {
    && (m.revoked ==> m.current == "" && m.prev == "")
    && (!m.revoked ==> m.current != "")
    && (m.prev != "" ==> m.prev != m.current && m.current in parent && parent[m.current] == m.prev)
  }

  ghost predicate RowsOk(w: World) { forall id :: id in w.st.machines ==> RowOk(w.st.machines[id], w.parent) }

  /** Valid tokens are of one machine, and not retired. */
  ghost predicate Disjoint(st: Store) {
    && (forall id, h :: Holds(st, id, h) ==> h !in st.retired)
    && (forall i, j, h :: Holds(st, i, h) && Holds(st, j, h) ==> i == j)
  }

  ghost predicate Owned(st: Store, h: string) { h in st.retired || exists id :: Holds(st, id, h) }

  /** The tokens given are exactly those valid or retired. */
  ghost predicate Conserved(w: World) {
    && "" !in w.issued
    && (forall h :: h in w.issued <==> Owned(w.st, h))
    && (forall h :: h in w.st.retired ==> w.st.retired[h] in w.st.machines)
  }

  /** Whose a token is, or was. */
  predicate OwnedBy(st: Store, id: string, h: string) { Holds(st, id, h) || (h in st.retired && st.retired[h] == id) }

  /** A token is of the machine the one it was given for is, and is another. */
  ghost predicate Parents(w: World) {
    && w.parent.Keys <= w.issued
    && (forall h :: h in w.parent ==> w.parent[h] != h && w.parent[h] in w.issued)
    && (forall h, id :: h in w.parent && OwnedBy(w.st, id, h) ==> OwnedBy(w.st, id, w.parent[h]))
  }

  /** Every token given is one machine's, valid or retired, and never both. */
  ghost predicate Inv(w: World) { RowsOk(w) && Disjoint(w.st) && Conserved(w) && Parents(w) }

  lemma {:induction false} RetireMeans(retired: map<string, string>, id: string, hashes: seq<string>, h: string)
    ensures var r := Retire(retired, id, hashes);
      && (h in r <==> h in retired || (h in hashes && h != ""))
      && (h in retired ==> r[h] == retired[h])
      && (h in r && h !in retired ==> r[h] == id)
  {
    if hashes != [] {
      var n := |hashes| - 1;
      RetireMeans(retired, id, hashes[..n], h);
      assert hashes == hashes[..n] + [hashes[n]];
    }
  }

  /** One machine's tokens change: next, if given, is new; those it no longer holds are retired. */
  ghost predicate RowStep(w: World, id: string, row: Row, retire: seq<string>, next: string) {
    && id in w.st.machines
    && (forall h :: Holds(w.st, id, h) ==> h == row.current || h == row.prev || h in retire)
    && (forall h :: h in retire && h != "" ==> Holds(w.st, id, h) && h != row.current && h != row.prev)
    && (forall h :: h != "" && (h == row.current || h == row.prev) ==> Holds(w.st, id, h) || h == next)
    && (next != "" ==> next !in w.issued)
  }

  lemma RetiredNow(st: Store, id: string, retire: seq<string>, h: string)
    ensures var r := Retire(st.retired, id, retire);
      && (h in r <==> h in st.retired || (h in retire && h != ""))
      && (h in r ==> r[h] == if h in st.retired then st.retired[h] else id)
  {
    RetireMeans(st.retired, id, retire, h);
  }

  lemma StepDisjoint(w: World, id: string, row: Row, retire: seq<string>, next: string, st: Store)
    requires Disjoint(w.st) && Conserved(w) && RowStep(w, id, row, retire, next)
    requires st == Store(w.st.machines[id := row], Retire(w.st.retired, id, retire))
    ensures Disjoint(st)
  {
    forall i, h | Holds(st, i, h)
      ensures h !in st.retired
    {
      RetiredNow(w.st, id, retire, h);
      if i == id {
        assert h !in retire && (Holds(w.st, id, h) || h == next);
        assert h == next ==> !Owned(w.st, h);
      } else {
        assert Holds(w.st, i, h);
        assert h in retire ==> Holds(w.st, id, h);
      }
    }
    forall i, j, h | Holds(st, i, h) && Holds(st, j, h) ensures i == j {
      assert i == id || j == id ==> Holds(w.st, id, h) || h == next;
      assert i != id ==> Holds(w.st, i, h);
      assert j != id ==> Holds(w.st, j, h);
      assert h == next ==> !Owned(w.st, h);
    }
  }

  lemma StepConserved(w: World, id: string, row: Row, retire: seq<string>, next: string, r: World)
    requires Conserved(w) && RowStep(w, id, row, retire, next)
    requires r.st == Store(w.st.machines[id := row], Retire(w.st.retired, id, retire))
    requires r.issued == (if next == "" then w.issued else w.issued + {next}) && (next != "" ==> row.current == next)
    ensures Conserved(r)
  {
    forall h ensures h in r.issued <==> Owned(r.st, h) {
      RetiredNow(w.st, id, retire, h);
      assert h in w.issued <==> Owned(w.st, h);
      if Owned(w.st, h) && h !in w.st.retired {
        var i :| Holds(w.st, i, h);
        if i != id { assert Holds(r.st, i, h); } else { assert h in retire || Holds(r.st, id, h); }
      }
      if next != "" { assert Holds(r.st, id, next); }
      if Owned(r.st, h) && h !in r.st.retired {
        var i :| Holds(r.st, i, h);
        assert h == next || Holds(w.st, i, h);
      }
    }
    forall h | h in r.st.retired ensures r.st.retired[h] in r.st.machines { RetiredNow(w.st, id, retire, h); }
  }

  /** A step moves no token from one machine to another. */
  lemma StepOwners(w: World, id: string, row: Row, retire: seq<string>, next: string, st: Store, i: string, h: string)
    requires Disjoint(w.st) && Conserved(w) && RowStep(w, id, row, retire, next) && h in w.issued
    requires st == Store(w.st.machines[id := row], Retire(w.st.retired, id, retire))
    ensures OwnedBy(st, i, h) <==> OwnedBy(w.st, i, h)
  {
    RetiredNow(w.st, id, retire, h);
    assert Owned(w.st, h);
    assert i != id ==> (Holds(st, i, h) <==> Holds(w.st, i, h));
    assert Holds(st, id, h) ==> Holds(w.st, id, h);
  }

  lemma StepParents(w: World, id: string, row: Row, retire: seq<string>, next: string, given: string, r: World)
    requires Disjoint(w.st) && Conserved(w) && Parents(w) && RowStep(w, id, row, retire, next)
    requires r.st == Store(w.st.machines[id := row], Retire(w.st.retired, id, retire)) && Disjoint(r.st) && Conserved(r)
    requires r.issued == (if next == "" then w.issued else w.issued + {next}) && (next != "" ==> row.current == next)
    requires r.parent == (if next == "" then w.parent else w.parent[next := given]) && (next != "" ==> Holds(w.st, id, given))
    ensures Parents(r)
  {
    assert next != "" ==> Owned(w.st, given) && Holds(r.st, id, next);
    forall h, i | h in r.parent && OwnedBy(r.st, i, h) ensures OwnedBy(r.st, i, r.parent[h]) {
      if h == next && next != "" {
        assert i == id;
        StepOwners(w, id, row, retire, next, r.st, id, given);
      } else {
        StepOwners(w, id, row, retire, next, r.st, i, h);
        StepOwners(w, id, row, retire, next, r.st, i, w.parent[h]);
      }
    }
  }

  /** A machine's tokens change as a step does. */
  lemma StepInv(w: World, id: string, row: Row, retire: seq<string>, next: string, given: string, r: World)
    requires Inv(w) && RowStep(w, id, row, retire, next)
    requires r.st == Store(w.st.machines[id := row], Retire(w.st.retired, id, retire))
    requires r.issued == (if next == "" then w.issued else w.issued + {next}) && (next != "" ==> row.current == next)
    requires r.parent == (if next == "" then w.parent else w.parent[next := given]) && (next != "" ==> Holds(w.st, id, given))
    requires RowOk(row, r.parent)
    ensures Inv(r)
  {
    StepDisjoint(w, id, row, retire, next, r.st);
    StepConserved(w, id, row, retire, next, r);
    StepParents(w, id, row, retire, next, given, r);
    forall i | i in r.st.machines && i != id ensures RowOk(r.st.machines[i], r.parent) {
      var m := w.st.machines[i];
      assert RowOk(m, w.parent);
      assert m.current != "" ==> Holds(w.st, i, m.current) && Owned(w.st, m.current);
    }
  }

  lemma RotateKeeps(w: World, e: Event)
    requires Inv(w) && Enabled(w, e) && e.Rotate?
    ensures Inv(Apply(w, e))
  {
    if e.id in w.st.machines && !w.st.machines[e.id].revoked {
      var m := w.st.machines[e.id];
      var t := RotateTokens(m.current, m.prev, e.presented, e.next);
      assert RowOk(m, w.parent);
      if t.ok {
        assert Holds(w.st, e.id, m.current) && (m.prev != "" ==> Holds(w.st, e.id, m.prev));
        StepInv(w, e.id, Row(t.current, t.prev, false), t.retire, e.next, e.presented, Apply(w, e));
      }
    }
  }

  lemma ConfirmKeeps(w: World, e: Event)
    requires Inv(w) && e.Confirm?
    ensures Inv(Apply(w, e))
  {
    if e.id in w.st.machines && !w.st.machines[e.id].revoked {
      var m := w.st.machines[e.id];
      var t := ConfirmToken(m.current, m.prev, e.token);
      assert RowOk(m, w.parent);
      if t.ok {
        StepInv(w, e.id, Row(t.current, t.prev, false), t.retire, "", "", Apply(w, e));
      }
    }
  }

  lemma RevokeKeeps(w: World, id: string)
    requires Inv(w)
    ensures Inv(w.(st := Revoked(w.st, id).0))
  {
    if id in w.st.machines && !w.st.machines[id].revoked {
      var m := w.st.machines[id];
      assert RowOk(m, w.parent);
      StepInv(w, id, Row("", "", true), [m.current, m.prev], "", "", w.(st := Revoked(w.st, id).0));
    }
  }

  lemma EnrollKeeps(w: World, e: Event)
    requires Inv(w) && Enabled(w, e) && e.Enroll?
    ensures Inv(Apply(w, e))
  {
    var r := Apply(w, e);
    assert !Owned(w.st, e.token);
    forall i, h | Holds(r.st, i, h) ensures (i == e.id && h == e.token) || (i != e.id && Holds(w.st, i, h)) {}
    forall h ensures h in r.issued <==> Owned(r.st, h) {
      assert h in w.issued <==> Owned(w.st, h);
      if Owned(w.st, h) && h !in w.st.retired {
        var i :| Holds(w.st, i, h);
        assert Holds(r.st, i, h);
      }
      assert Holds(r.st, e.id, e.token);
    }
    forall h, i | h in w.parent && OwnedBy(r.st, i, h) ensures OwnedBy(r.st, i, w.parent[h]) {
      assert OwnedBy(w.st, i, h) && OwnedBy(w.st, i, w.parent[h]);
    }
  }

  lemma StepKeeps(w: World, e: Event)
    requires Inv(w) && Enabled(w, e)
    ensures Inv(Apply(w, e))
  {
    match e
    case Enroll(_, _) => EnrollKeeps(w, e);
    case Rotate(_, _, _) => RotateKeeps(w, e);
    case Confirm(_, _) => ConfirmKeeps(w, e);
    case Revoke(id) => RevokeKeeps(w, id);
    case Present(token) => if token in w.st.retired { RevokeKeeps(w, w.st.retired[token]); }
  }
  ghost predicate Reaches(w: World, events: seq<Event>, last: World)
    decreases |events|
  {
    if events == [] then w == last else Enabled(w, events[0]) && Reaches(Apply(w, events[0]), events[1..], last)
  }

  const EMPTY := World(Store(map[], map[]), {}, map[])

  lemma {:induction false} RunKeeps(w: World, events: seq<Event>, last: World)
    requires Inv(w) && Reaches(w, events, last)
    ensures Inv(last)
    decreases |events|
  {
    if events != [] {
      StepKeeps(w, events[0]);
      RunKeeps(Apply(w, events[0]), events[1..], last);
    }
  }

  lemma RetiredStays(w: World, e: Event, h: string)
    requires Inv(w) && Enabled(w, e) && h in w.st.retired
    ensures h in Apply(w, e).st.retired && Apply(w, e).st.retired[h] == w.st.retired[h]
  {
    match e
    case Rotate(id, presented, next) =>
      if id in w.st.machines { RetiredNow(w.st, id, RotateTokens(w.st.machines[id].current, w.st.machines[id].prev, presented, next).retire, h); }
    case Confirm(id, token) =>
      if id in w.st.machines { RetiredNow(w.st, id, ConfirmToken(w.st.machines[id].current, w.st.machines[id].prev, token).retire, h); }
    case Revoke(id) => RevokeRetires(w.st, id, h);
    case Present(token) => if token in w.st.retired { RevokeRetires(w.st, w.st.retired[token], h); }
    case Enroll(_, _) =>
  }

  lemma RevokeRetires(st: Store, id: string, h: string)
    ensures h in st.retired ==> h in Revoked(st, id).0.retired && Revoked(st, id).0.retired[h] == st.retired[h]
    ensures id in st.machines ==> Revoked(st, id).0.machines[id].revoked
  {
    if id in st.machines { RetiredNow(st, id, [st.machines[id].current, st.machines[id].prev], h); }
  }

  /** Over every run: a retired token is never valid again, and is always told apart; presented, it
      revokes the machine it was. */
  lemma {:induction false} RetiredForGood(w: World, events: seq<Event>, last: World, h: string)
    requires Inv(w) && Reaches(w, events, last) && h in w.st.retired
    ensures Inv(last) && w.st.retired[h] in Presented(last.st, h).machines
    ensures IsUse(last.st, h, Retired(w.st.retired[h])) && !exists id :: Holds(last.st, id, h)
    ensures Presented(last.st, h).machines[w.st.retired[h]].revoked
    decreases |events|
  {
    if events == [] {
      RevokeRetires(w.st, w.st.retired[h], h);
    } else {
      StepKeeps(w, events[0]);
      RetiredStays(w, events[0], h);
      RetiredForGood(Apply(w, events[0]), events[1..], last, h);
    }
  }

  /** Over every run: two tokens given for the same one, to whoever held it, are never both valid; the
      one that is not is retired: its holder is found out the next time it presents it. */
  lemma CopiesAreExposed(events: seq<Event>, last: World, a: string, b: string)
    requires Reaches(EMPTY, events, last)
    requires a != b && a in last.parent && b in last.parent && last.parent[a] == last.parent[b]
    ensures a in last.st.retired || b in last.st.retired
  {
    RunKeeps(EMPTY, events, last);
    if a !in last.st.retired && b !in last.st.retired {
      assert Owned(last.st, a) && Owned(last.st, b);
      var i :| Holds(last.st, i, a);
      var j :| Holds(last.st, j, b);
      OneFamily(last, i, j, a, b);
      NeverBoth(last, i, a, b);
    }
  }

  lemma OneFamily(w: World, i: string, j: string, a: string, b: string)
    requires Inv(w) && Holds(w.st, i, a) && Holds(w.st, j, b)
    requires a in w.parent && b in w.parent && w.parent[a] == w.parent[b]
    ensures i == j
  {
    assert OwnedBy(w.st, i, w.parent[a]) && OwnedBy(w.st, j, w.parent[a]);
  }

  /** Of a machine's two valid tokens, one was given for the other. */
  lemma NeverBoth(w: World, id: string, a: string, b: string)
    requires Inv(w) && Holds(w.st, id, a) && Holds(w.st, id, b) && a != b && a in w.parent && b in w.parent
    ensures w.parent[a] != w.parent[b]
  {
    assert RowOk(w.st.machines[id], w.parent);
  }

  // --- What a rotation does ---

  /** A rotation is refused exactly when the machine is not in use, or the token presented is not a valid one of its
      own. Else the next token is current, the one presented pending beside it, the other valid one, if any, retired,
      and nothing else changes. */
  lemma RotatedWhen(st: Store, id: string, presented: string, next: string, h: string)
    requires id in st.machines ==> (st.machines[id].prev == "" || st.machines[id].prev != st.machines[id].current)
    ensures var (r, out) := Rotated(st, id, presented, next);
      && (out == Done <==> id in st.machines && !st.machines[id].revoked && Holds(st, id, presented)) && (out != Done ==> out == Refused && r == st)
      && (out == Done ==> r.machines == st.machines[id := Row(next, presented, false)])
      && (out == Done ==> (h in r.retired <==> h in st.retired || (Holds(st, id, h) && h != presented)))
      && (out == Done && h in r.retired ==> r.retired[h] == if h in st.retired then st.retired[h] else id)
  {
    if id in st.machines {
      var m := st.machines[id];
      RetiredNow(st, id, RotateTokens(m.current, m.prev, presented, next).retire, h);
    }
  }

  /** A confirmation is refused exactly when the machine is not in use, or the token is not its current one. Else the
      pending one, if any, is retired, and nothing else changes. */
  lemma ConfirmedWhen(st: Store, id: string, token: string, h: string)
    ensures var (r, out) := Confirmed(st, id, token);
      && (out == Done <==> id in st.machines && !st.machines[id].revoked && token != "" && st.machines[id].current == token)
      && (out != Done ==> out == Refused && r == st)
      && (out == Done ==> r.machines == st.machines[id := Row(token, "", false)])
      && (out == Done ==> (h in r.retired <==> h in st.retired || (h != "" && h == st.machines[id].prev)))
      && (out == Done && h in r.retired ==> r.retired[h] == if h in st.retired then st.retired[h] else id)
  {
    if id in st.machines {
      var m := st.machines[id];
      RetiredNow(st, id, ConfirmToken(m.current, m.prev, token).retire, h);
    }
  }

  /** A machine revoked has no valid token: those it had are retired, as its own; the others' stay. */
  lemma RevokedWhen(st: Store, id: string, h: string, other: string)
    ensures var (r, out) := Revoked(st, id);
      && (out == NotFound <==> id !in st.machines) && (out == NotFound ==> r == st)
      && (id in st.machines ==> out == Done && id in r.machines && r.machines[id].revoked)
      && (id in st.machines && !st.machines[id].revoked ==> !Holds(r, id, h) && (h in r.retired <==> h in st.retired || Holds(st, id, h)))
      && (h in r.retired ==> r.retired[h] == if h in st.retired then st.retired[h] else id)
      && (id in st.machines && st.machines[id].revoked ==> r == st)
      && (other != id ==> (other in r.machines <==> other in st.machines) && (other in st.machines ==> r.machines[other] == st.machines[other]))
  {
    if id in st.machines { RetiredNow(st, id, [st.machines[id].current, st.machines[id].prev], h); }
  }

  /** Only a retired token revokes when presented, and only the machine it was. */
  lemma PresentedWhen(st: Store, h: string)
    ensures h !in st.retired ==> Presented(st, h) == st
    ensures h in st.retired && st.retired[h] in st.machines ==>
      Presented(st, h).machines[st.retired[h]].revoked && Presented(st, h).machines - {st.retired[h]} == st.machines - {st.retired[h]}
  {
  }

  /** The lookup's answer, in the store's terms: the machine whose current token it is, else the one whose pending one it
      is, else the one it was a token of, else none. */
  lemma UseMeans(w: World, h: string, use: Use)
    requires Inv(w) && IsUse(w.st, h, use)
    ensures forall id :: use == Current(id) <==> id in w.st.machines && h != "" && w.st.machines[id].current == h
    ensures forall id :: use == Pending(id) <==> id in w.st.machines && h != "" && w.st.machines[id].prev == h
    ensures forall id :: use == Retired(id) <==> h in w.st.retired && w.st.retired[h] == id
    ensures use == Unknown <==> h !in w.issued
  {
    assert h in w.issued <==> Owned(w.st, h);
    forall id | id in w.st.machines && h != "" && (w.st.machines[id].current == h || w.st.machines[id].prev == h)
      ensures h !in w.st.retired && (use == Current(id) <==> w.st.machines[id].current == h) && (use == Pending(id) <==> w.st.machines[id].prev == h)
    {
      assert Holds(w.st, id, h) && RowOk(w.st.machines[id], w.parent);
      match use
      case Current(i) => assert Holds(w.st, i, h);
      case Pending(i) => assert Holds(w.st, i, h);
      case _ =>
    }
    match use
    case Current(i) => assert Holds(w.st, i, h);
    case Pending(i) => assert Holds(w.st, i, h);
    case _ =>
  }

  // --- What a token was given for ---

  /** The token a machine's current one was given for is pending beside it, or retired; the one its pending
      one was given for is retired. */
  predicate LineOk(m: Row, parent: map<string, string>, retired: map<string, string>) {
    && (m.current in parent ==> (m.prev != "" && parent[m.current] == m.prev) || parent[m.current] in retired)
    && (m.prev in parent ==> parent[m.prev] in retired)
  }

  ghost predicate Lines(w: World) { forall id :: id in w.st.machines ==> LineOk(w.st.machines[id], w.parent, w.st.retired) }

  lemma LineStays(m: Row, w: World, e: Event)
    requires Inv(w) && Enabled(w, e) && LineOk(m, w.parent, w.st.retired) && m.current in w.issued + {""} && m.prev in w.issued + {""}
    ensures LineOk(m, Apply(w, e).parent, Apply(w, e).st.retired)
  {
    if m.current in w.parent && w.parent[m.current] in w.st.retired { RetiredStays(w, e, w.parent[m.current]); }
    if m.prev in w.parent { RetiredStays(w, e, w.parent[m.prev]); }
  }

  lemma RowIssued(w: World, id: string)
    requires Inv(w) && id in w.st.machines
    ensures w.st.machines[id].current in w.issued + {""} && w.st.machines[id].prev in w.issued + {""}
  {
    var m := w.st.machines[id];
    if m.current != "" { assert Holds(w.st, id, m.current) && Owned(w.st, m.current); }
    if m.prev != "" { assert Holds(w.st, id, m.prev) && Owned(w.st, m.prev); }
  }

  lemma RotateLine(w: World, e: Event)
    requires Inv(w) && Lines(w) && Enabled(w, e) && e.Rotate? && e.id in w.st.machines && !w.st.machines[e.id].revoked
    ensures LineOk(Apply(w, e).st.machines[e.id], Apply(w, e).parent, Apply(w, e).st.retired)
  {
    var m := w.st.machines[e.id];
    var t := RotateTokens(m.current, m.prev, e.presented, e.next);
    RowIssued(w, e.id);
    LineStays(m, w, e);
    assert LineOk(m, w.parent, w.st.retired) && RowOk(m, w.parent);
    RetiredNow(w.st, e.id, t.retire, m.current);
    RetiredNow(w.st, e.id, t.retire, m.prev);
    if m.current in w.parent { RetiredNow(w.st, e.id, t.retire, w.parent[m.current]); }
  }

  lemma ConfirmLine(w: World, e: Event)
    requires Inv(w) && Lines(w) && e.Confirm? && e.id in w.st.machines && !w.st.machines[e.id].revoked
    ensures LineOk(Apply(w, e).st.machines[e.id], Apply(w, e).parent, Apply(w, e).st.retired)
  {
    var m := w.st.machines[e.id];
    var t := ConfirmToken(m.current, m.prev, e.token);
    RowIssued(w, e.id);
    LineStays(m, w, e);
    assert LineOk(m, w.parent, w.st.retired);
    RetiredNow(w.st, e.id, t.retire, m.prev);
  }

  lemma OtherLine(w: World, e: Event, id: string)
    requires Inv(w) && Lines(w) && Enabled(w, e) && id in Apply(w, e).st.machines
    requires !((e.Rotate? || e.Confirm?) && e.id == id && id in w.st.machines && !w.st.machines[id].revoked)
    ensures LineOk(Apply(w, e).st.machines[id], Apply(w, e).parent, Apply(w, e).st.retired)
  {
    if id in w.st.machines {
      RowIssued(w, id);
      LineStays(w.st.machines[id], w, e);
    }
  }

  lemma LinesKept(w: World, e: Event)
    requires Inv(w) && Lines(w) && Enabled(w, e)
    ensures Lines(Apply(w, e))
  {
    var r := Apply(w, e);
    forall id | id in r.st.machines ensures LineOk(r.st.machines[id], r.parent, r.st.retired) {
      if e.Rotate? && e.id == id && id in w.st.machines && !w.st.machines[id].revoked {
        RotateLine(w, e);
      } else if e.Confirm? && e.id == id && id in w.st.machines && !w.st.machines[id].revoked {
        ConfirmLine(w, e);
      } else {
        OtherLine(w, e, id);
      }
    }
  }

  lemma {:induction false} RunLines(w: World, events: seq<Event>, last: World)
    requires Inv(w) && Lines(w) && Reaches(w, events, last)
    ensures Inv(last) && Lines(last)
    decreases |events|
  {
    if events != [] {
      StepKeeps(w, events[0]);
      LinesKept(w, events[0]);
      RunLines(Apply(w, events[0]), events[1..], last);
    }
  }

  /** Over every run: once a rotation is confirmed, the token it was given for is retired for good: never valid
      again, whoever holds a copy of it is told apart, and presenting it revokes the machine. */
  lemma ConfirmedSupersedes(first: seq<Event>, w: World, id: string, token: string, events: seq<Event>, last: World)
    requires Reaches(EMPTY, first, w) && Confirmed(w.st, id, token).1 == Done && token in w.parent
    requires Reaches(Apply(w, Confirm(id, token)), events, last)
    ensures IsUse(last.st, w.parent[token], Retired(id)) && !exists other :: Holds(last.st, other, w.parent[token])
    ensures id in last.st.machines && Presented(last.st, w.parent[token]).machines[id].revoked
  {
    RunLines(EMPTY, first, w);
    var h, r := w.parent[token], Apply(w, Confirm(id, token));
    StepKeeps(w, Confirm(id, token));
    LinesKept(w, Confirm(id, token));
    assert LineOk(r.st.machines[id], r.parent, r.st.retired);
    assert OwnedBy(r.st, id, token) && OwnedBy(r.st, id, h);
    RetiredForGood(r, events, last, h);
  }

  // --- The program's store ---

  class TokenStore {
    var machines: map<string, Row>
    var retired: map<string, string>

    constructor ()
      ensures S() == Store(map[], map[])
    {
      machines, retired := map[], map[];
    }

    function S(): Store
      reads this
    {
      Store(machines, retired)
    }

    /** The machine a token is, or was, the credential of. */
    method MachineByToken(h: string) returns (use: Use)
      ensures IsUse(S(), h, use)
    {
      var ids := machines.Keys;
      while ids != {}
        invariant ids <= machines.Keys
        invariant forall id :: id in machines && id !in ids ==> !Holds(S(), id, h)
        decreases ids
      {
        var id :| id in ids;
        if h != "" && machines[id].current == h {
          return Current(id);
        }
        if h != "" && machines[id].prev == h {
          return Pending(id);
        }
        ids := ids - {id};
      }
      if h in retired {
        return Retired(retired[h]);
      }
      return Unknown;
    }

    method RetireTokens(id: string, hashes: seq<string>)
      modifies this`retired
      ensures retired == Retire(old(retired), id, hashes)
    {
      for i := 0 to |hashes|
        invariant retired == Retire(old(retired), id, hashes[..i])
      {
        assert hashes[..i + 1][..i] == hashes[..i];
        if hashes[i] == "" {
          continue;
        }
        if hashes[i] !in retired {
          retired := retired[hashes[i] := id];
        }
      }
      assert hashes[..|hashes|] == hashes;
    }

    /** Gives a machine its next token, on the connection that presented one of its tokens. */
    method RotateMachineToken(id: string, presented: string, next: string) returns (out: Outcome)
      modifies this
      ensures (S(), out) == Rotated(old(S()), id, presented, next)
    {
      if id !in machines || machines[id].revoked {
        return Refused;
      }
      var r := RotateTokens(machines[id].current, machines[id].prev, presented, next);
      if !r.ok {
        return Refused;
      }
      RetireTokens(id, r.retire);
      machines := machines[id := Row(r.current, r.prev, false)];
      out := Done;
    }

    /** Ends a rotation: the machine wrote its current token. */
    method ConfirmMachineToken(id: string, h: string) returns (out: Outcome)
      modifies this
      ensures (S(), out) == Confirmed(old(S()), id, h)
    {
      if id !in machines || machines[id].revoked {
        return Refused;
      }
      var r := ConfirmToken(machines[id].current, machines[id].prev, h);
      if !r.ok {
        return Refused;
      }
      RetireTokens(id, r.retire);
      machines := machines[id := Row(r.current, r.prev, false)];
      out := Done;
    }

    /** Revokes a machine for good, its tokens kept as retired. */
    method RevokeMachine(id: string) returns (out: Outcome)
      modifies this
      ensures (S(), out) == Revoked(old(S()), id)
    {
      if id !in machines {
        return NotFound;
      }
      if machines[id].revoked {
        return Done;
      }
      RetireTokens(id, [machines[id].current, machines[id].prev]);
      machines := machines[id := Row("", "", true)];
      out := Done;
    }
  }
}
