/** One honest machine and its gateway (store/machine.go, gateway/conn.go, machine/connect): dialing,
    crashing, losing messages, old connections lingering. When its token stays good, exactly. */
module Rotation {
  import opened Text
  import opened Tokens

  /** How far a connection came: dialed; its token accepted; its next token sent; that token written
      by the machine, which said so; or over. */
  datatype Phase = Dialed | Admitted | Given(next: string) | Wrote(next: string) | Closed

  datatype Conn = Conn(presented: string, phase: Phase)

  /** The machine reads its latest connection only, the last of conns. */
  datatype Honest = Honest(row: Row, retired: set<string>, disk: string, conns: seq<Conn>)

  datatype Move =
    | Dial
    | Lookup(k: nat)
    | RotateOn(k: nat, next: string)
    | Write
    | ConfirmOn(k: nat)
    | Drop(k: nat)

  predicate Latest(w: Honest, k: nat) { k + 1 == |w.conns| }

  predicate Issued(w: Honest, h: string) { h != "" && (h == w.row.current || h == w.row.prev || h in w.retired) }

  predicate Enabled(w: Honest, e: Move) {
    match e
    case Dial => true
    case Lookup(k) => k < |w.conns| && w.conns[k].phase.Dialed?
    case RotateOn(k, next) => k < |w.conns| && w.conns[k].phase.Admitted? && next != "" && !Issued(w, next)
    case Write => w.conns != [] && w.conns[|w.conns| - 1].phase.Given?
    case ConfirmOn(k) => k < |w.conns| && w.conns[k].phase.Wrote?
    case Drop(k) => k < |w.conns|
  }

  function SetOf(s: seq<string>): set<string> { set h | h in s && h != "" }

  function At(w: Honest, k: nat, phase: Phase): seq<Conn>
    requires k < |w.conns|
  {
    w.conns[k := w.conns[k].(phase := phase)]
  }

  function Apply(w: Honest, e: Move): Honest
    requires Enabled(w, e)
  {
    match e
    case Dial => w.(conns := w.conns + [Conn(w.disk, Dialed)])
    case Lookup(k) =>
      var h := w.conns[k].presented;
      if h == w.row.current || h == w.row.prev then w.(conns := At(w, k, Admitted))
      else if h in w.retired && !w.row.revoked then
        w.(row := Row("", "", true), retired := w.retired + SetOf([w.row.current, w.row.prev]), conns := At(w, k, Closed))
      else w.(conns := At(w, k, Closed))
    case RotateOn(k, next) =>
      var r := RotateTokens(w.row.current, w.row.prev, w.conns[k].presented, next);
      if w.row.revoked || !r.ok then w.(conns := At(w, k, Closed))
      else w.(row := Row(r.current, r.prev, false), retired := w.retired + SetOf(r.retire), conns := At(w, k, Given(next)))
    case Write =>
      var n := |w.conns| - 1;
      w.(disk := w.conns[n].phase.next, conns := At(w, n, Wrote(w.conns[n].phase.next)))
    case ConfirmOn(k) =>
      var r := ConfirmToken(w.row.current, w.row.prev, w.conns[k].phase.next);
      if w.row.revoked || !r.ok then w.(conns := At(w, k, Closed))
      else w.(row := Row(r.current, r.prev, false), retired := w.retired + SetOf(r.retire), conns := At(w, k, Closed))
    case Drop(k) => w.(conns := At(w, k, Closed))
  }

  predicate AwaitsWrite(w: Honest) { w.conns != [] && w.conns[|w.conns| - 1].phase.Given? }

  /** The machine's token is good, and the one it is being given is. */
  ghost predicate Inv(w: Honest) {
    && !w.row.revoked && w.row.current != "" && w.row.current != w.row.prev
    && w.row.current !in w.retired && w.row.prev !in w.retired && "" !in w.retired
    && w.disk != "" && (w.disk == w.row.current || w.disk == w.row.prev)
    && (AwaitsWrite(w) ==> Offered(w, w.conns[|w.conns| - 1].phase.next))
    && (forall k :: 0 <= k < |w.conns| ==> ConnOk(w, w.conns[k]))
    && (w.conns != [] ==> LatestOk(w, w.conns[|w.conns| - 1]))
  }

  /** The token on its way to the machine is the current one, which nobody presented yet. */
  ghost predicate Offered(w: Honest, next: string) {
    next == w.row.current && w.disk == w.row.prev && forall k :: 0 <= k < |w.conns| ==> w.conns[k].presented != next
  }

  predicate ConnOk(w: Honest, c: Conn) {
    && Issued(w, c.presented)
    && (c.presented == w.row.current ==> w.disk == w.row.current)
    && (c.phase.Wrote? && c.phase.next == w.row.current ==> w.disk == w.row.current)
    && (c.phase.Given? || c.phase.Wrote? ==> Issued(w, c.phase.next))
  }

  /** The latest connection presented what the disk holds, until the machine writes on it. */
  predicate LatestOk(w: Honest, c: Conn) {
    c.phase.Dialed? || c.phase.Admitted? || c.phase.Given? ==> c.presented == w.disk
  }

  /** A step that keeps the machine's token good: not the late lookup of an abandoned dial whose token
      was since retired, nor the late rotation of one that presented the pending token, when the
      machine has written the current one or is about to. */
  predicate Harmless(w: Honest, e: Move)
    requires Enabled(w, e)
  {
    match e
    case Lookup(k) => w.conns[k].presented !in w.retired
    case RotateOn(k, _) => w.conns[k].presented != w.row.prev || (w.disk == w.row.prev && !AwaitsWrite(w))
    case _ => true
  }

  /** Tokens are given and retired, never forgotten; a connection keeps what it presented. */
  lemma StillIssued(w: Honest, e: Move, h: string)
    requires Inv(w) && Enabled(w, e) && Harmless(w, e) && Issued(w, h)
    ensures Issued(Apply(w, e), h)
  {
  }

  lemma ConnsKeep(w: Honest, e: Move, k: nat)
    requires Inv(w) && Enabled(w, e) && Harmless(w, e) && k < |Apply(w, e).conns|
    ensures ConnOk(Apply(w, e), Apply(w, e).conns[k])
  {
    if k < |w.conns| {
      assert ConnOk(w, w.conns[k]);
      StillIssued(w, e, w.conns[k].presented);
      if w.conns[k].phase.Given? || w.conns[k].phase.Wrote? { StillIssued(w, e, w.conns[k].phase.next); }
    }
  }

  lemma LatestKeeps(w: Honest, e: Move)
    requires Inv(w) && Enabled(w, e) && Harmless(w, e)
    ensures var r := Apply(w, e);
      && (r.conns != [] ==> LatestOk(r, r.conns[|r.conns| - 1]))
      && (AwaitsWrite(r) ==> Offered(r, r.conns[|r.conns| - 1].phase.next))
  {
    forall k | 0 <= k < |w.conns| ensures ConnOk(w, w.conns[k]) {}
  }

  lemma RowKeeps(w: Honest, e: Move)
    requires Inv(w) && Enabled(w, e) && Harmless(w, e)
    ensures var r := Apply(w, e);
      && !r.row.revoked && r.row.current != "" && r.row.current != r.row.prev
      && r.row.current !in r.retired && r.row.prev !in r.retired && "" !in r.retired
      && r.disk != "" && (r.disk == r.row.current || r.disk == r.row.prev)
  {
    match e
    case RotateOn(k, _) => assert ConnOk(w, w.conns[k]);
    case ConfirmOn(k) => assert ConnOk(w, w.conns[k]);
    case _ =>
  }

  lemma HarmlessKeeps(w: Honest, e: Move)
    requires Inv(w) && Enabled(w, e) && Harmless(w, e)
    ensures Inv(Apply(w, e))
  {
    RowKeeps(w, e);
    LatestKeeps(w, e);
    forall k | 0 <= k < |Apply(w, e).conns| ensures ConnOk(Apply(w, e), Apply(w, e).conns[k]) { ConnsKeep(w, e, k); }
  }

  /** Exactly when a step keeps the machine's token good. */
  lemma KeptExactlyWhen(w: Honest, e: Move)
    requires Inv(w) && Enabled(w, e)
    ensures Inv(Apply(w, e)) <==> Harmless(w, e)
  {
    if Harmless(w, e) { HarmlessKeeps(w, e); }
  }

  ghost predicate Runs(w: Honest, events: seq<Move>, last: Honest)
    decreases |events|
  {
    if events == [] then w == last
    else Enabled(w, events[0]) && Harmless(w, events[0]) && Runs(Apply(w, events[0]), events[1..], last)
  }

  function New(token: string): Honest { Honest(Row(token, "", false), {}, token, []) }

  lemma {:induction false} RunKeeps(w: Honest, events: seq<Move>, last: Honest)
    requires Inv(w) && Runs(w, events, last)
    ensures Inv(last)
    decreases |events|
  {
    if events != [] {
      HarmlessKeeps(w, events[0]);
      RunKeeps(Apply(w, events[0]), events[1..], last);
    }
  }

  /** Whatever crashes and losses, an honest machine's disk holds its current or its pending token, and
      what its latest connection presents is never answered as retired. */
  lemma HonestMachineKept(token: string, events: seq<Move>, last: Honest)
    requires token != "" && Runs(New(token), events, last)
    ensures !last.row.revoked && last.disk != "" && last.disk in {last.row.current, last.row.prev} && last.disk !in last.retired
    ensures last.conns != [] && last.conns[|last.conns| - 1].phase.Dialed? ==>
      Apply(last, Lookup(|last.conns| - 1)).conns[|last.conns| - 1].phase == Admitted
  {
    RunKeeps(New(token), events, last);
  }

  /** What the gateway does for the machine's latest connection is never harmful. */
  lemma LatestIsHarmless(w: Honest, e: Move)
    requires Inv(w) && Enabled(w, e)
    requires match e case Lookup(k) => Latest(w, k) case RotateOn(k, _) => Latest(w, k) case _ => true
    ensures Harmless(w, e)
  {
    assert w.conns != [] ==> LatestOk(w, w.conns[|w.conns| - 1]);
  }

  /** A late confirmation, of a token since replaced, changes nothing. */
  lemma LateRotatedChangesNothing(w: Honest, k: nat)
    requires Inv(w) && Enabled(w, ConfirmOn(k)) && w.conns[k].phase.next != w.row.current
    ensures var r := Apply(w, ConfirmOn(k)); r.row == w.row && r.retired == w.retired && r.disk == w.disk
  {
  }

  /** A machine whose token is good, whatever its old connections wait for: dialing, it is let in, given a next token,
      writes it, says so, and holds it from then on, the only valid one, all it had before retired. */
  lemma RotationGoesThrough(w: Honest, next: string)
    requires Inv(w) && next != "" && !Issued(w, next)
    ensures var k := |w.conns|;
      var w1 := Apply(w, Dial);
      && Enabled(w1, Lookup(k)) && var w2 := Apply(w1, Lookup(k));
      && Enabled(w2, RotateOn(k, next)) && var w3 := Apply(w2, RotateOn(k, next));
      && Enabled(w3, Write) && var w4 := Apply(w3, Write);
      && Enabled(w4, ConfirmOn(k)) && var last := Apply(w4, ConfirmOn(k));
      && last.row == Row(next, "", false) && last.disk == next
      && last.retired == w.retired + {w.row.current} + (if w.row.prev == "" then {} else {w.row.prev})
  {
    var k := |w.conns|;
    var w1 := Apply(w, Dial);
    assert w1.conns[k] == Conn(w.disk, Dialed);
    var w2 := Apply(w1, Lookup(k));
    assert w2.conns[k] == Conn(w.disk, Admitted) && w2.row == w.row;
    var w3 := Apply(w2, RotateOn(k, next));
    assert w3.conns[k] == Conn(w.disk, Given(next)) && w3.row == Row(next, w.disk, false);
    var w4 := Apply(w3, Write);
    assert w4.conns[k] == Conn(w.disk, Wrote(next)) && w4.disk == next;
  }

  /** The run of a list of events. */
  function After(w: Honest, events: seq<Move>): Option<Honest>
    decreases |events|
  {
    if events == [] then Some(w) else if !Enabled(w, events[0]) then None else After(Apply(w, events[0]), events[1..])
  }

  /** An honest machine revoked: it gave a dial up, dialed again and rotated its token; then the dial
      it gave up reached the store. */
  lemma LateLookupRevokes()
    ensures var events := [Dial, Dial, Lookup(1), RotateOn(1, "b"), Write, ConfirmOn(1), Lookup(0)];
      After(New("a"), events).Some? && After(New("a"), events).value.row.revoked
  {
    var w := New("a");
    var w1 := Apply(Apply(w, Dial), Dial);
    var w2 := Apply(Apply(w1, Lookup(1)), RotateOn(1, "b"));
    var w3 := Apply(Apply(w2, Write), ConfirmOn(1));
    assert w3.row == Row("b", "", false) && "a" in w3.retired && w3.conns[0] == Conn("a", Dialed);
    var events := [Dial, Dial, Lookup(1), RotateOn(1, "b"), Write, ConfirmOn(1), Lookup(0)];
    Unfold(w, events);
    Unfold(Apply(w, Dial), events[1..]);
    Unfold(w1, events[2..]);
    Unfold(Apply(w1, Lookup(1)), events[3..]);
    Unfold(w2, events[4..]);
    Unfold(Apply(w2, Write), events[5..]);
    Unfold(w3, events[6..]);
  }

  /** An honest machine's token retired before it wrote it: a connection it had left was given a token
      after the one it reads was; the machine wrote the latter, and is revoked when it comes back. */
  lemma LateRotationRevokes()
    ensures var events := [Dial, Lookup(0), Dial, Lookup(1), RotateOn(1, "b"), RotateOn(0, "c"), Write, Dial, Lookup(2)];
      After(New("a"), events).Some? && After(New("a"), events).value.row.revoked
  {
    var events := [Dial, Lookup(0), Dial, Lookup(1), RotateOn(1, "b"), RotateOn(0, "c"), Write, Dial, Lookup(2)];
    var w := Honest(Row("a", "", false), {}, "a", [Conn("a", Admitted), Conn("a", Admitted)]);
    TwoAdmitted(events, w);
    LateRotation(w, events[4..]);
  }

  lemma TwoAdmitted(events: seq<Move>, w: Honest)
    requires |events| >= 4 && events[..4] == [Dial, Lookup(0), Dial, Lookup(1)]
    requires w == Honest(Row("a", "", false), {}, "a", [Conn("a", Admitted), Conn("a", Admitted)])
    ensures After(New("a"), events) == After(w, events[4..])
  {
    assert events[0] == Dial && events[1] == Lookup(0) && events[2] == Dial && events[3] == Lookup(1);
    var w1 := Apply(New("a"), Dial);
    var w2 := Apply(w1, Lookup(0));
    var w3 := Apply(w2, Dial);
    assert Apply(w3, Lookup(1)) == w;
    Unfold(New("a"), events);
    Unfold(w1, events[1..]);
    Unfold(w2, events[2..]);
    Unfold(w3, events[3..]);
  }

  lemma LateRotation(w: Honest, events: seq<Move>)
    requires w == Honest(Row("a", "", false), {}, "a", [Conn("a", Admitted), Conn("a", Admitted)])
    requires events == [RotateOn(1, "b"), RotateOn(0, "c"), Write, Dial, Lookup(2)]
    ensures After(w, events).Some? && After(w, events).value.row.revoked
  {
    var w1 := Apply(Apply(w, RotateOn(1, "b")), RotateOn(0, "c"));
    assert w1.row == Row("c", "a", false) && "b" in w1.retired;
    var w2 := Apply(Apply(w1, Write), Dial);
    Unfold(w, events);
    Unfold(Apply(w, RotateOn(1, "b")), events[1..]);
    Unfold(w1, events[2..]);
    Unfold(Apply(w1, Write), events[3..]);
    Unfold(w2, events[4..]);
  }

  lemma Unfold(w: Honest, events: seq<Move>)
    requires events != [] && Enabled(w, events[0])
    ensures After(w, events) == After(Apply(w, events[0]), events[1..])
  {
  }
}
