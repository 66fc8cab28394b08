/** The order a conversation is read in (conversation/order.go): the one arrangement by rank of its messages. */
module Order {
  import opened Text
  import opened Keys
  import opened Messages
  import opened Sorting

  /** Where a message belongs: after which message, as itself or in a turn's block, the block's place
      among those of one anchor, the message's place in its block. */
  datatype Rank = Rank(at: int, ofTurn: bool, first: int, id: int)

  predicate RankLe(a: Rank, b: Rank) {
    a.at < b.at || (a.at == b.at &&
      ((!a.ofTurn && b.ofTurn) || (a.ofTurn == b.ofTurn &&
        (a.first < b.first || (a.first == b.first && a.id <= b.id)))))
  }

  /** The messages of a turn among ms, in their order. */
  function Of(ms: seq<Entry>, t: Turn): (r: seq<Entry>)
    ensures forall m :: m in r <==> m in ms && m.key.Writer() == Some(t)
  {
    if ms == [] then [] else
    var n := |ms| - 1;
    assert ms == ms[..n] + [ms[n]];
    if ms[n].key.Writer() == Some(t) then Of(ms[..n], t) + [ms[n]] else Of(ms[..n], t)
  }

  predicate Has(ms: seq<Entry>, t: Turn) { Of(ms, t) != [] }

  lemma HasMeans(ms: seq<Entry>, m: Entry)
    requires m in ms && m.key.Writer().Some?
    ensures Has(ms, m.key.Writer().value)
  {
    assert m in Of(ms, m.key.Writer().value);
  }

  /** The ID of a turn's first message among ms. */
  function First(ms: seq<Entry>, t: Turn): int {
    if ms == [] then 0 else
    var n := |ms| - 1;
    if ms[n].key.Writer() != Some(t) then First(ms[..n], t)
    else if Has(ms[..n], t) && First(ms[..n], t) <= ms[n].id then First(ms[..n], t)
    else ms[n].id
  }

  lemma {:induction false} FirstMeans(ms: seq<Entry>, t: Turn)
    ensures forall m :: m in Of(ms, t) ==> First(ms, t) <= m.id
    ensures Has(ms, t) ==> exists m :: m in Of(ms, t) && m.id == First(ms, t)
  {
    if ms != [] {
      var n := |ms| - 1;
      FirstMeans(ms[..n], t);
      assert ms == ms[..n] + [ms[n]];
      if ms[n].key.Writer() == Some(t) && First(ms, t) == ms[n].id {
        assert ms[n] in Of(ms, t);
      }
    }
  }

  function RankIn(m: Entry, ms: seq<Entry>): Rank {
    match m.key.Writer()
    case None => Rank(m.id, false, m.id, m.id)
    case Some(t) => Rank(t.anchor, true, First(ms, t), m.id)
  }

  ghost predicate UniqueIds(ms: seq<Entry>) {
    forall i, j :: 0 <= i < j < |ms| ==> ms[i].id != ms[j].id
  }

  /** ms in the order of the ranks: what Order computes. */
  function Ordered(ms: seq<Entry>): (out: seq<Entry>)
    ensures multiset(out) == multiset(ms) && |out| == |ms|
  {
    Sort(ms, (a: Entry, b: Entry) => RankLe(RankIn(a, ms), RankIn(b, ms)))
  }

  ghost predicate InRankOrder(out: seq<Entry>, ms: seq<Entry>) {
    forall i, j :: 0 <= i < j < |out| ==> RankLe(RankIn(out[i], ms), RankIn(out[j], ms))
  }

  lemma OrderedIsSorted(ms: seq<Entry>)
    ensures InRankOrder(Ordered(ms), ms)
  {
    var le := (a: Entry, b: Entry) => RankLe(RankIn(a, ms), RankIn(b, ms));
    SortSorted(ms, le);
    var out := Ordered(ms);
    forall i, j | 0 <= i < j < |out|
      ensures RankLe(RankIn(out[i], ms), RankIn(out[j], ms))
    {
      assert le(out[i], out[j]);
    }
  }

  lemma UniqueIdsMeans(ms: seq<Entry>, x: Entry, y: Entry)
    requires UniqueIds(ms) && x in ms && y in ms && x.id == y.id
    ensures x == y
  {
  }

  /** The one way to arrange messages of unique IDs by rank. */
  lemma OnlyArrangement(ms: seq<Entry>, out: seq<Entry>)
    requires UniqueIds(ms) && multiset(out) == multiset(ms) && InRankOrder(out, ms)
    ensures out == Ordered(ms)
  {
    var le := (a: Entry, b: Entry) => RankLe(RankIn(a, ms), RankIn(b, ms));
    OrderedIsSorted(ms);
    forall x, y | x in out && y in out && le(x, y) && le(y, x)
      ensures x == y
    {
      assert x in multiset(ms) && y in multiset(ms);
      assert RankIn(x, ms) == RankIn(y, ms);
      UniqueIdsMeans(ms, x, y);
    }
    assert SortedBy(out, le) && SortedBy(Ordered(ms), le);
    SortedUnique(out, Ordered(ms), le);
  }

  // --- The program's own way: blocks by turn, then blocks and messages merged ---

  /** A turn's messages, while Order gathers them. */
  datatype Block = Block(turn: Turn, anchor: int, first: int, msgs: seq<Entry>)

  function Flat(blocks: seq<Block>): seq<Entry> {
    if blocks == [] then [] else blocks[0].msgs + Flat(blocks[1..])
  }

  lemma {:induction false} FlatUpdate(blocks: seq<Block>, k: nat, b: Block, m: Entry)
    requires k < |blocks| && b.msgs == blocks[k].msgs + [m]
    ensures multiset(Flat(blocks[k := b])) == multiset(Flat(blocks)) + multiset{m}
  {
    if k == 0 {
      assert blocks[k := b][1..] == blocks[1..];
    } else {
      assert blocks[k := b][1..] == blocks[1..][k - 1 := b];
      FlatUpdate(blocks[1..], k - 1, b, m);
    }
  }

  lemma {:induction false} FlatConcat(a: seq<Block>, b: seq<Block>)
    ensures Flat(a + b) == Flat(a) + Flat(b)
  {
    if a == [] {
      assert a + b == b;
    } else {
      assert (a + b)[1..] == a[1..] + b;
      FlatConcat(a[1..], b);
    }
  }

  lemma {:induction false} InFlat(blocks: seq<Block>, m: Entry) returns (k: nat)
    requires m in Flat(blocks)
    ensures k < |blocks| && m in blocks[k].msgs
  {
    if m in blocks[0].msgs {
      k := 0;
    } else {
      k := InFlat(blocks[1..], m);
      k := k + 1;
    }
  }

  /** A block as the messages of one turn, its anchor and first ID those of the turn. */
  ghost predicate Gathered(b: Block, ms: seq<Entry>) {
    && b.anchor == b.turn.anchor
    && b.first == First(ms, b.turn)
    && b.msgs == Of(ms, b.turn)
  }

  predicate IdLe(a: Entry, b: Entry) { a.id <= b.id }

  predicate BlockLe(a: Block, b: Block) {
    a.anchor < b.anchor || (a.anchor == b.anchor && a.first <= b.first)
  }

  function SortedBlock(b: Block): seq<Entry> { Sort(b.msgs, IdLe) }

  /** What the two loops over sorted messages and sorted blocks write. */
  function Merge(plain: seq<Entry>, blocks: seq<Block>): seq<Entry> {
    if blocks != [] && (plain == [] || blocks[0].anchor < plain[0].id) then SortedBlock(blocks[0]) + Merge(plain, blocks[1..])
    else if plain != [] then [plain[0]] + Merge(plain[1..], blocks)
    else []
  }

  lemma {:induction false} MergeKeepsAll(plain: seq<Entry>, blocks: seq<Block>)
    ensures multiset(Merge(plain, blocks)) == multiset(plain) + multiset(Flat(blocks))
    decreases |plain| + |blocks|
  {
    if blocks != [] && (plain == [] || blocks[0].anchor < plain[0].id) {
      MergeKeepsAll(plain, blocks[1..]);
    } else if plain != [] {
      MergeKeepsAll(plain[1..], blocks);
      assert plain == [plain[0]] + plain[1..];
    }
  }

  /** What the merge is given: messages no turn wrote and gathered blocks, both sorted. */
  ghost predicate Mergeable(plain: seq<Entry>, blocks: seq<Block>, ms: seq<Entry>) {
    && (forall m :: m in plain ==> m.key.Writer() == None)
    && (forall k :: 0 <= k < |blocks| ==> Gathered(blocks[k], ms))
    && SortedBy(plain, IdLe)
    && SortedBy(blocks, BlockLe)
  }

  /** Everything a merge writes ranks after what comes before all of it. */
  lemma RestRanksAfter(r: Rank, plain: seq<Entry>, blocks: seq<Block>, ms: seq<Entry>, m: Entry)
    requires Mergeable(plain, blocks, ms) && m in Merge(plain, blocks)
    requires plain != [] ==> RankLe(r, RankIn(plain[0], ms))
    requires blocks != [] ==> RankLe(r, Rank(blocks[0].anchor, true, blocks[0].first, r.id))
    requires r.ofTurn ==> forall k :: 0 <= k < |blocks| ==> r.at != blocks[k].anchor || r.first != blocks[k].first
    ensures RankLe(r, RankIn(m, ms))
  {
    MergeKeepsAll(plain, blocks);
    assert m in multiset(plain) + multiset(Flat(blocks));
    if m in plain {
      assert IdLe(plain[0], m);
    } else {
      var k := InFlat(blocks, m);
      BlockRank(blocks[k], ms, m);
      assert k > 0 ==> BlockLe(blocks[0], blocks[k]);
    }
  }

  lemma BlockRank(b: Block, ms: seq<Entry>, m: Entry)
    requires Gathered(b, ms) && m in b.msgs
    ensures RankIn(m, ms) == Rank(b.anchor, true, b.first, m.id)
  {
  }

  ghost predicate DistinctFirsts(blocks: seq<Block>) {
    forall j, k :: 0 <= j < k < |blocks| ==> blocks[j].first != blocks[k].first
  }

  lemma HeadBlockFirst(plain: seq<Entry>, blocks: seq<Block>, ms: seq<Entry>, x: Entry, y: Entry)
    requires Mergeable(plain, blocks, ms) && DistinctFirsts(blocks)
    requires blocks != [] && (plain == [] || blocks[0].anchor < plain[0].id)
    requires x in SortedBlock(blocks[0]) && y in Merge(plain, blocks[1..])
    ensures RankLe(RankIn(x, ms), RankIn(y, ms))
  {
    assert x in multiset(SortedBlock(blocks[0]));
    BlockRank(blocks[0], ms, x);
    assert |blocks| > 1 ==> BlockLe(blocks[0], blocks[1]);
    RestRanksAfter(RankIn(x, ms), plain, blocks[1..], ms, y);
  }

  lemma HeadMessageFirst(plain: seq<Entry>, blocks: seq<Block>, ms: seq<Entry>, y: Entry)
    requires Mergeable(plain, blocks, ms)
    requires plain != [] && (blocks == [] || plain[0].id <= blocks[0].anchor)
    requires y in Merge(plain[1..], blocks)
    ensures RankLe(RankIn(plain[0], ms), RankIn(y, ms))
  {
    assert |plain| > 1 ==> IdLe(plain[0], plain[1]);
    RestRanksAfter(RankIn(plain[0], ms), plain[1..], blocks, ms, y);
  }

  lemma {:induction false} MergeInRankOrder(plain: seq<Entry>, blocks: seq<Block>, ms: seq<Entry>)
    requires Mergeable(plain, blocks, ms) && DistinctFirsts(blocks)
    ensures InRankOrder(Merge(plain, blocks), ms)
    decreases |plain| + |blocks|
  {
    if blocks != [] && (plain == [] || blocks[0].anchor < plain[0].id) {
      var head, rest := SortedBlock(blocks[0]), Merge(plain, blocks[1..]);
      MergeInRankOrder(plain, blocks[1..], ms);
      BlockInRankOrder(blocks[0], ms);
      forall x, y | x in head && y in rest
        ensures RankLe(RankIn(x, ms), RankIn(y, ms))
      {
        HeadBlockFirst(plain, blocks, ms, x, y);
      }
      Joined(head, rest, ms);
    } else if plain != [] {
      var rest := Merge(plain[1..], blocks);
      MergeInRankOrder(plain[1..], blocks, ms);
      forall y | y in rest
        ensures RankLe(RankIn(plain[0], ms), RankIn(y, ms))
      {
        HeadMessageFirst(plain, blocks, ms, y);
      }
      Joined([plain[0]], rest, ms);
    }
  }

  lemma Joined(a: seq<Entry>, b: seq<Entry>, ms: seq<Entry>)
    requires InRankOrder(a, ms) && InRankOrder(b, ms)
    requires forall x, y :: x in a && y in b ==> RankLe(RankIn(x, ms), RankIn(y, ms))
    ensures InRankOrder(a + b, ms)
  {
  }

  lemma BlockInRankOrder(b: Block, ms: seq<Entry>)
    requires Gathered(b, ms)
    ensures InRankOrder(SortedBlock(b), ms)
  {
    SortSorted(b.msgs, IdLe);
    var s := SortedBlock(b);
    forall i, j | 0 <= i < j < |s|
      ensures RankLe(RankIn(s[i], ms), RankIn(s[j], ms))
    {
      assert s[i] in multiset(s) && s[j] in multiset(s);
      BlockRank(b, ms, s[i]);
      BlockRank(b, ms, s[j]);
      assert IdLe(s[i], s[j]);
    }
  }

  /** What the gathering loop holds after the messages ms. */
  ghost predicate GatheredAll(plain: seq<Entry>, blocks: seq<Block>, byTurn: map<Turn, nat>, ms: seq<Entry>) {
    && (forall m :: m in plain ==> m.key.Writer() == None)
    && (forall k :: 0 <= k < |blocks| ==> Gathered(blocks[k], ms))
    && Indexed(blocks, byTurn)
    && Known(byTurn.Keys, ms)
    && multiset(plain) + multiset(Flat(blocks)) == multiset(ms)
  }

  /** The turns that wrote one of ms. */
  ghost predicate Known(turns: set<Turn>, ms: seq<Entry>) { forall t :: t in turns <==> Has(ms, t) }

  /** byTurn finds each turn's one block. */
  ghost predicate Indexed(blocks: seq<Block>, byTurn: map<Turn, nat>) {
    && (forall k :: 0 <= k < |blocks| ==> blocks[k].turn in byTurn && byTurn[blocks[k].turn] == k)
    && (forall t :: t in byTurn ==> byTurn[t] < |blocks| && blocks[byTurn[t]].turn == t)
  }

  /** One more message: the ones it belongs with, told from every other turn's. */
  lemma Extended(ms: seq<Entry>, m: Entry, t: Turn)
    ensures Of(ms + [m], t) == if m.key.Writer() == Some(t) then Of(ms, t) + [m] else Of(ms, t)
    ensures Has(ms + [m], t) <==> Has(ms, t) || m.key.Writer() == Some(t)
    ensures m.key.Writer() != Some(t) ==> First(ms + [m], t) == First(ms, t)
    ensures m.key.Writer() == Some(t) ==>
      First(ms + [m], t) == if Has(ms, t) && First(ms, t) <= m.id then First(ms, t) else m.id
  {
    assert (ms + [m])[..|ms|] == ms;
  }

  lemma GatherPlain(plain: seq<Entry>, blocks: seq<Block>, byTurn: map<Turn, nat>, ms: seq<Entry>, m: Entry)
    requires GatheredAll(plain, blocks, byTurn, ms) && m.key.Writer() == None
    ensures GatheredAll(plain + [m], blocks, byTurn, ms + [m])
  {
    forall t ensures Has(ms + [m], t) <==> Has(ms, t) { Extended(ms, m, t); }
    forall k | 0 <= k < |blocks| ensures Gathered(blocks[k], ms + [m]) { OthersGathered(blocks, ms, m, k); }
  }

  /** A message of a turn leaves the other turns' blocks gathered. */
  lemma OthersGathered(blocks: seq<Block>, ms: seq<Entry>, m: Entry, j: nat)
    requires j < |blocks| && Gathered(blocks[j], ms) && m.key.Writer() != Some(blocks[j].turn)
    ensures Gathered(blocks[j], ms + [m])
  {
    Extended(ms, m, blocks[j].turn);
  }

  lemma FlatAppend(blocks: seq<Block>, b: Block, m: Entry)
    requires b.msgs == [m]
    ensures multiset(Flat(blocks + [b])) == multiset(Flat(blocks)) + multiset{m}
  {
    FlatConcat(blocks, [b]);
    assert Flat([b]) == [m] + Flat([b][1..]);
  }

  lemma IndexedAppend(blocks: seq<Block>, byTurn: map<Turn, nat>, b: Block)
    requires Indexed(blocks, byTurn) && b.turn !in byTurn
    ensures Indexed(blocks + [b], byTurn[b.turn := |blocks|])
  {
    assert forall k :: 0 <= k < |blocks| ==> (blocks + [b])[k] == blocks[k];
  }

  lemma TurnsExtended(known: set<Turn>, ms: seq<Entry>, m: Entry, t: Turn)
    requires Known(known, ms) && m.key.Writer() == Some(t)
    ensures Known(known + {t}, ms + [m])
  {
    forall u ensures u in known + {t} <==> Has(ms + [m], u) { Extended(ms, m, u); }
  }

  lemma BlocksAppended(blocks: seq<Block>, ms: seq<Entry>, m: Entry, t: Turn)
    requires (forall k :: 0 <= k < |blocks| ==> Gathered(blocks[k], ms) && blocks[k].turn != t)
    requires m.key.Writer() == Some(t) && !Has(ms, t)
    ensures var more := blocks + [Block(t, t.anchor, m.id, [m])];
      forall k :: 0 <= k < |more| ==> Gathered(more[k], ms + [m])
  {
    var more := blocks + [Block(t, t.anchor, m.id, [m])];
    forall k | 0 <= k < |more| ensures Gathered(more[k], ms + [m]) {
      if k < |blocks| { OthersGathered(blocks, ms, m, k); } else { Extended(ms, m, t); }
    }
  }

  lemma OneMore(plain: seq<Entry>, blocks: seq<Block>, more: seq<Block>, ms: seq<Entry>, m: Entry)
    requires multiset(plain) + multiset(Flat(blocks)) == multiset(ms)
    requires multiset(Flat(more)) == multiset(Flat(blocks)) + multiset{m}
    ensures multiset(plain) + multiset(Flat(more)) == multiset(ms + [m])
  {
  }

  /** One more message of a turn: its block is made or extended. */
  lemma GatherOne(plain: seq<Entry>, blocks: seq<Block>, more: seq<Block>, ms: seq<Entry>, m: Entry, byTurn: map<Turn, nat>, index: map<Turn, nat>)
    requires GatheredAll(plain, blocks, byTurn, ms) && m.key.Writer().Some?
    requires forall k :: 0 <= k < |more| ==> Gathered(more[k], ms + [m])
    requires Indexed(more, index) && index.Keys == byTurn.Keys + {m.key.Writer().value}
    requires multiset(Flat(more)) == multiset(Flat(blocks)) + multiset{m}
    ensures GatheredAll(plain, more, index, ms + [m])
  {
    OneMore(plain, blocks, more, ms, m);
    TurnsExtended(byTurn.Keys, ms, m, m.key.Writer().value);
  }

  /** Everything the first message of a turn does to the blocks. */
  lemma BlockAppended(blocks: seq<Block>, byTurn: map<Turn, nat>, ms: seq<Entry>, m: Entry, t: Turn, more: seq<Block>, index: map<Turn, nat>)
    requires Indexed(blocks, byTurn) && t !in byTurn && m.key.Writer() == Some(t) && !Has(ms, t)
    requires forall k :: 0 <= k < |blocks| ==> Gathered(blocks[k], ms)
    requires more == blocks + [Block(t, t.anchor, m.id, [m])] && index == byTurn[t := |blocks|]
    ensures forall k :: 0 <= k < |more| ==> Gathered(more[k], ms + [m])
    ensures Indexed(more, index)
    ensures multiset(Flat(more)) == multiset(Flat(blocks)) + multiset{m}
  {
    BlocksAppended(blocks, ms, m, t);
    IndexedAppend(blocks, byTurn, Block(t, t.anchor, m.id, [m]));
    FlatAppend(blocks, Block(t, t.anchor, m.id, [m]), m);
  }

  lemma GatherFirst(plain: seq<Entry>, blocks: seq<Block>, byTurn: map<Turn, nat>, ms: seq<Entry>, m: Entry, t: Turn, more: seq<Block>)
    requires GatheredAll(plain, blocks, byTurn, ms) && m.key.Writer() == Some(t) && t !in byTurn
    requires more == blocks + [Block(t, t.anchor, m.id, [m])]
    ensures GatheredAll(plain, more, byTurn[t := |blocks|], ms + [m])
  {
    assert t !in byTurn.Keys;
    BlockAppended(blocks, byTurn, ms, m, t, more, byTurn[t := |blocks|]);
    assert byTurn[t := |blocks|].Keys == byTurn.Keys + {t};
    GatherOne(plain, blocks, more, ms, m, byTurn, byTurn[t := |blocks|]);
  }

  function Extend(b: Block, m: Entry): Block {
    b.(first := if m.id < b.first then m.id else b.first, msgs := b.msgs + [m])
  }

  lemma IndexedUpdate(blocks: seq<Block>, byTurn: map<Turn, nat>, k: nat, b: Block)
    requires Indexed(blocks, byTurn) && k < |blocks| && b.turn == blocks[k].turn
    ensures Indexed(blocks[k := b], byTurn)
  {
    assert forall j :: 0 <= j < |blocks| ==> blocks[k := b][j].turn == blocks[j].turn;
  }

  lemma BlocksExtended(blocks: seq<Block>, byTurn: map<Turn, nat>, ms: seq<Entry>, m: Entry, t: Turn)
    requires Indexed(blocks, byTurn) && t in byTurn && m.key.Writer() == Some(t) && Has(ms, t)
    requires forall k :: 0 <= k < |blocks| ==> Gathered(blocks[k], ms)
    ensures var more := blocks[byTurn[t] := Extend(blocks[byTurn[t]], m)];
      forall k :: 0 <= k < |more| ==> Gathered(more[k], ms + [m])
  {
    var more := blocks[byTurn[t] := Extend(blocks[byTurn[t]], m)];
    forall k | 0 <= k < |more| ensures Gathered(more[k], ms + [m]) {
      if k == byTurn[t] { Extended(ms, m, t); } else { OthersGathered(blocks, ms, m, k); }
    }
  }

  /** Everything one more message of a known turn does to the blocks. */
  lemma BlockExtended(blocks: seq<Block>, byTurn: map<Turn, nat>, ms: seq<Entry>, m: Entry, t: Turn, more: seq<Block>)
    requires Indexed(blocks, byTurn) && t in byTurn && m.key.Writer() == Some(t) && Has(ms, t)
    requires forall k :: 0 <= k < |blocks| ==> Gathered(blocks[k], ms)
    requires var k := byTurn[t]; more == blocks[k := Extend(blocks[k], m)]
    ensures forall k :: 0 <= k < |more| ==> Gathered(more[k], ms + [m])
    ensures Indexed(more, byTurn)
    ensures multiset(Flat(more)) == multiset(Flat(blocks)) + multiset{m}
  {
    var k := byTurn[t];
    BlocksExtended(blocks, byTurn, ms, m, t);
    IndexedUpdate(blocks, byTurn, k, Extend(blocks[k], m));
    FlatUpdate(blocks, k, Extend(blocks[k], m), m);
  }

  lemma GatherMore(plain: seq<Entry>, blocks: seq<Block>, byTurn: map<Turn, nat>, ms: seq<Entry>, m: Entry, more: seq<Block>)
    requires GatheredAll(plain, blocks, byTurn, ms) && m.key.Writer().Some? && m.key.Writer().value in byTurn
    requires var k := byTurn[m.key.Writer().value]; more == blocks[k := Extend(blocks[k], m)]
    ensures GatheredAll(plain, more, byTurn, ms + [m])
  {
    var t := m.key.Writer().value;
    assert t in byTurn.Keys;
    BlockExtended(blocks, byTurn, ms, m, t, more);
    assert byTurn.Keys + {t} == byTurn.Keys;
    GatherOne(plain, blocks, more, ms, m, byTurn, byTurn);
  }

  /** Turns of messages with unique IDs begin at different IDs. */
  lemma FirstsDiffer(plain: seq<Entry>, blocks: seq<Block>, byTurn: map<Turn, nat>, ms: seq<Entry>)
    requires GatheredAll(plain, blocks, byTurn, ms) && UniqueIds(ms)
    ensures DistinctFirsts(blocks)
  {
    forall j, k | 0 <= j < k < |blocks|
      ensures blocks[j].first != blocks[k].first
    {
      assert blocks[j].turn in byTurn.Keys && blocks[k].turn in byTurn.Keys;
      FirstMeans(ms, blocks[j].turn);
      FirstMeans(ms, blocks[k].turn);
      var a :| a in Of(ms, blocks[j].turn) && a.id == First(ms, blocks[j].turn);
      var b :| b in Of(ms, blocks[k].turn) && b.id == First(ms, blocks[k].turn);
      assert blocks[j].turn != blocks[k].turn;
      if a.id == b.id { UniqueIdsMeans(ms, a, b); }
    }
  }

  /** What was gathered, sorted, can be merged. */
  lemma SortedParts(plain: seq<Entry>, blocks: seq<Block>, ms: seq<Entry>)
    requires forall m :: m in plain ==> m.key.Writer() == None
    requires forall k :: 0 <= k < |blocks| ==> Gathered(blocks[k], ms)
    ensures Mergeable(Sort(plain, IdLe), Sort(blocks, BlockLe), ms)
  {
    var p, b := Sort(plain, IdLe), Sort(blocks, BlockLe);
    SortSorted(plain, IdLe);
    SortSorted(blocks, BlockLe);
    forall m | m in p ensures m.key.Writer() == None { assert m in multiset(p); }
    forall k | 0 <= k < |b| ensures Gathered(b[k], ms) { assert b[k] in multiset(b); }
  }

  lemma SortedFirsts(blocks: seq<Block>)
    requires DistinctFirsts(blocks)
    ensures DistinctFirsts(Sort(blocks, BlockLe))
  {
    PermutedPairs(blocks, Sort(blocks, BlockLe), (x: Block, y: Block) => x.first != y.first);
  }

  lemma MergedParts(plain: seq<Entry>, blocks: seq<Block>)
    ensures multiset(Merge(Sort(plain, IdLe), Sort(blocks, BlockLe))) == multiset(plain) + multiset(Flat(blocks))
  {
    MergeKeepsAll(Sort(plain, IdLe), Sort(blocks, BlockLe));
    FlatPermuted(blocks, Sort(blocks, BlockLe));
  }

  /** The sorted parts of what was gathered merge into the one arrangement by rank. */
  lemma MergedIsOrdered(plain: seq<Entry>, blocks: seq<Block>, byTurn: map<Turn, nat>, ms: seq<Entry>)
    requires GatheredAll(plain, blocks, byTurn, ms)
    ensures multiset(Merge(Sort(plain, IdLe), Sort(blocks, BlockLe))) == multiset(ms)
    ensures UniqueIds(ms) ==> Merge(Sort(plain, IdLe), Sort(blocks, BlockLe)) == Ordered(ms)
  {
    MergedParts(plain, blocks);
    if UniqueIds(ms) {
      SortedParts(plain, blocks, ms);
      FirstsDiffer(plain, blocks, byTurn, ms);
      SortedFirsts(blocks);
      MergeInRankOrder(Sort(plain, IdLe), Sort(blocks, BlockLe), ms);
      OnlyArrangement(ms, Merge(Sort(plain, IdLe), Sort(blocks, BlockLe)));
    }
  }

  lemma FlatWithout(b: seq<Block>, i: nat)
    requires i < |b|
    ensures multiset(Flat(b)) == multiset(b[i].msgs) + multiset(Flat(b[..i] + b[i + 1..]))
  {
    var tail := [b[i]] + b[i + 1..];
    FlatConcat(b[..i], b[i + 1..]);
    FlatConcat(b[..i], tail);
    assert b == b[..i] + tail && tail[1..] == b[i + 1..];
  }

  lemma {:induction false} FlatPermuted(a: seq<Block>, b: seq<Block>)
    requires multiset(a) == multiset(b)
    ensures multiset(Flat(a)) == multiset(Flat(b))
  {
    assert |multiset(a)| == |a| && |multiset(b)| == |b|;
    if a != [] {
      assert a[0] in multiset(b);
      var i :| 0 <= i < |b| && b[i] == a[0];
      MultisetTail(a);
      Without(b, i);
      FlatPermuted(a[1..], b[..i] + b[i + 1..]);
      FlatWithout(b, i);
    }
  }

  lemma Snoc(ms: seq<Entry>, i: nat)
    requires i < |ms|
    ensures ms[..i + 1] == ms[..i] + [ms[i]]
  {
  }

  lemma GatherNothing()
    ensures GatheredAll([], [], map[], [])
  {
  }

  /** The first loop: the messages no turn wrote, and a block for each turn. */
  method Gather(messages: seq<Entry>) returns (plain: seq<Entry>, blocks: seq<Block>, byTurn: map<Turn, nat>)
    ensures GatheredAll(plain, blocks, byTurn, messages)
  {
    blocks, plain, byTurn := [], [], map[];
    GatherNothing();
    assert messages[..0] == [];
    for i := 0 to |messages|
      invariant GatheredAll(plain, blocks, byTurn, messages[..i])
    {
      var m := messages[i];
      ghost var pre := messages[..i];
      Snoc(messages, i);
      match m.key.Writer() {
        case None =>
          GatherPlain(plain, blocks, byTurn, pre, m);
          plain := plain + [m];
        case Some(turn) =>
          if turn !in byTurn {
            var more := blocks + [Block(turn, turn.anchor, m.id, [m])];
            GatherFirst(plain, blocks, byTurn, pre, m, turn, more);
            byTurn, blocks := byTurn[turn := |blocks|], more;
          } else {
            var more := blocks[byTurn[turn] := Extend(blocks[byTurn[turn]], m)];
            GatherMore(plain, blocks, byTurn, pre, m, more);
            blocks := more;
          }
      }
    }
    assert messages[..|messages|] == messages;
  }

  /** The merge, written after out. */
  function MergeOnto(out: seq<Entry>, plain: seq<Entry>, blocks: seq<Block>): seq<Entry>
    decreases |plain| + |blocks|
  {
    if blocks != [] && (plain == [] || blocks[0].anchor < plain[0].id)
      then MergeOnto(out + SortedBlock(blocks[0]), plain, blocks[1..])
    else if plain != [] then MergeOnto(out + [plain[0]], plain[1..], blocks)
    else out
  }

  lemma {:induction false} MergedOnto(out: seq<Entry>, plain: seq<Entry>, blocks: seq<Block>)
    ensures MergeOnto(out, plain, blocks) == out + Merge(plain, blocks)
    decreases |plain| + |blocks|
  {
    if blocks != [] && (plain == [] || blocks[0].anchor < plain[0].id) {
      MergedOnto(out + SortedBlock(blocks[0]), plain, blocks[1..]);
    } else if plain != [] {
      MergedOnto(out + [plain[0]], plain[1..], blocks);
    }
  }

  /** The loops over the sorted messages and the sorted blocks. */
  method Interleave(plain: seq<Entry>, blocks: seq<Block>) returns (out: seq<Entry>)
    ensures out == Merge(plain, blocks)
  {
    out := [];
    var next := 0;
    ghost var ps, bs := plain, blocks;
    for i := 0 to |plain|
      invariant next <= |blocks| && bs == blocks[next..] && ps == plain[i..]
      invariant MergeOnto(out, ps, bs) == MergeOnto([], plain, blocks)
    {
      // The blocks anchored before this message follow the message before it.
      while next < |blocks| && blocks[next].anchor < plain[i].id
        invariant next <= |blocks| && bs == blocks[next..]
        invariant MergeOnto(out, ps, bs) == MergeOnto([], plain, blocks)
      {
        out := out + SortedBlock(blocks[next]);
        next, bs := next + 1, bs[1..];
      }
      out := out + [plain[i]];
      ps := ps[1..];
    }
    while next < |blocks|
      invariant next <= |blocks| && bs == blocks[next..]
      invariant MergeOnto(out, [], bs) == MergeOnto([], plain, blocks)
    {
      out := out + SortedBlock(blocks[next]);
      next, bs := next + 1, bs[1..];
    }
    MergedOnto([], plain, blocks);
  }

  /** Puts each turn, as one block, right after the message it answers. */
  method Order(messages: seq<Entry>) returns (out: seq<Entry>)
    ensures multiset(out) == multiset(messages)
    ensures UniqueIds(messages) ==> out == Ordered(messages)
  {
    var plain, blocks, byTurn := Gather(messages);
    MergedIsOrdered(plain, blocks, byTurn, messages);
    out := Interleave(Sort(plain, IdLe), Sort(blocks, BlockLe));
  }

  // --- What the order is ---

  lemma OfSet(ms: seq<Entry>, other: seq<Entry>, t: Turn)
    requires multiset(ms) == multiset(other)
    ensures forall m :: m in Of(ms, t) <==> m in Of(other, t)
    ensures Has(ms, t) <==> Has(other, t)
  {
    forall m ensures m in Of(ms, t) <==> m in Of(other, t) {
      assert m in ms <==> m in multiset(ms);
      assert m in other <==> m in multiset(other);
    }
    assert Has(ms, t) ==> Of(ms, t)[0] in Of(other, t);
    assert Has(other, t) ==> Of(other, t)[0] in Of(ms, t);
  }

  lemma FirstOfSet(ms: seq<Entry>, other: seq<Entry>, t: Turn)
    requires multiset(ms) == multiset(other) && Has(ms, t)
    ensures First(ms, t) == First(other, t)
  {
    OfSet(ms, other, t);
    FirstMeans(ms, t);
    FirstMeans(other, t);
    var x :| x in Of(ms, t) && x.id == First(ms, t);
    var y :| y in Of(other, t) && y.id == First(other, t);
    assert x in Of(other, t) && y in Of(ms, t);
  }

  lemma RankOfSet(ms: seq<Entry>, other: seq<Entry>, m: Entry)
    requires multiset(ms) == multiset(other) && m in ms
    ensures RankIn(m, ms) == RankIn(m, other)
  {
    if m.key.Writer().Some? {
      HasMeans(ms, m);
      FirstOfSet(ms, other, m.key.Writer().value);
    }
  }

  /** The order depends on the set of messages alone, not on how they came. */
  lemma OrderOfSet(ms: seq<Entry>, other: seq<Entry>)
    requires UniqueIds(ms) && multiset(ms) == multiset(other)
    ensures Ordered(ms) == Ordered(other)
  {
    var out := Ordered(other);
    OrderedIsSorted(other);
    forall i, j | 0 <= i < j < |out|
      ensures RankLe(RankIn(out[i], ms), RankIn(out[j], ms))
    {
      assert out[i] in multiset(other) && out[j] in multiset(other);
      RankOfSet(ms, other, out[i]);
      RankOfSet(ms, other, out[j]);
    }
    OnlyArrangement(ms, out);
  }

  /** Ordering twice changes nothing. */
  lemma OrderIsIdempotent(ms: seq<Entry>)
    requires UniqueIds(ms)
    ensures Ordered(Ordered(ms)) == Ordered(ms)
  {
    OrderOfSet(ms, Ordered(ms));
  }

  lemma OrderKeepsIdsUnique(ms: seq<Entry>)
    requires UniqueIds(ms)
    ensures UniqueIds(Ordered(ms))
  {
    PermutedPairs(ms, Ordered(ms), (x: Entry, y: Entry) => x.id != y.id);
  }

  /** Whose block a message ranks in says whose turn it is. */
  lemma FirstTellsTurn(ms: seq<Entry>, t: Turn, u: Turn)
    requires UniqueIds(ms) && Has(ms, t) && Has(ms, u) && First(ms, t) == First(ms, u)
    ensures t == u
  {
    FirstMeans(ms, t);
    FirstMeans(ms, u);
    var x :| x in Of(ms, t) && x.id == First(ms, t);
    var y :| y in Of(ms, u) && y.id == First(ms, u);
    UniqueIdsMeans(ms, x, y);
  }

  /** A turn's messages stay together, in the order it wrote them. */
  lemma TurnsAreWhole(ms: seq<Entry>, t: Turn, i: nat, j: nat, k: nat)
    requires UniqueIds(ms)
    requires i < j < k < |ms|
    requires Ordered(ms)[i].key.Writer() == Ordered(ms)[k].key.Writer() == Some(t)
    ensures Ordered(ms)[j].key.Writer() == Some(t)
    ensures Ordered(ms)[i].id < Ordered(ms)[j].id < Ordered(ms)[k].id
  {
    var out := Ordered(ms);
    OrderedIsSorted(ms);
    OrderKeepsIdsUnique(ms);
    assert out[i] in multiset(ms) && out[j] in multiset(ms);
    assert RankLe(RankIn(out[i], ms), RankIn(out[j], ms));
    assert RankLe(RankIn(out[j], ms), RankIn(out[k], ms));
    HasMeans(ms, out[i]);
    assert out[j].key.Writer().Some?;
    HasMeans(ms, out[j]);
    FirstTellsTurn(ms, t, out[j].key.Writer().value);
    assert out[i].id != out[j].id && out[j].id != out[k].id;
  }

  /** A turn comes after exactly the messages no turn wrote whose ID is not above its anchor. */
  lemma TurnsFollowTheirAnchor(ms: seq<Entry>, t: Turn, i: nat, j: nat)
    requires UniqueIds(ms) && i < |ms| && j < |ms|
    requires Ordered(ms)[i].key.Writer() == None && Ordered(ms)[j].key.Writer() == Some(t)
    ensures i < j <==> Ordered(ms)[i].id <= t.anchor
  {
    var out := Ordered(ms);
    OrderedIsSorted(ms);
    if i < j {
      assert RankLe(RankIn(out[i], ms), RankIn(out[j], ms));
    } else {
      assert RankLe(RankIn(out[j], ms), RankIn(out[i], ms));
    }
  }

  /** The messages no turn wrote come in the order of their IDs, and two turns of one anchor in the
      order of their first messages. */
  lemma TheRestByID(ms: seq<Entry>, i: nat, j: nat)
    requires UniqueIds(ms) && i < j < |ms|
    ensures var a, b := Ordered(ms)[i], Ordered(ms)[j];
      && (a.key.Writer().None? && b.key.Writer().None? ==> a.id < b.id)
      && (a.key.Writer().Some? && b.key.Writer().Some? ==>
           var t, u := a.key.Writer().value, b.key.Writer().value;
           t.anchor < u.anchor || (t.anchor == u.anchor && (t == u || First(ms, t) < First(ms, u))))
  {
    var out := Ordered(ms);
    OrderedIsSorted(ms);
    OrderKeepsIdsUnique(ms);
    var a, b := out[i], out[j];
    assert RankLe(RankIn(a, ms), RankIn(b, ms));
    if a.key.Writer().Some? && b.key.Writer().Some? {
      var t, u := a.key.Writer().value, b.key.Writer().value;
      assert a in multiset(ms) && b in multiset(ms);
      HasMeans(ms, a);
      HasMeans(ms, b);
      if First(ms, t) == First(ms, u) { FirstTellsTurn(ms, t, u); }
    }
  }
}
