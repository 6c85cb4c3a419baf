/** Where every transaction is, and what it is still due to do: how each step
    changes the total weight of the transactions in the system. */
module Conservation {
  import opened Ledger
  import opened Leaders
  import opened Sharding
  import opened Invariant
  import M = MigrationPreservation

  // ------------------------------------------------ all the places

  function FlatChannel(q: seq<Relay>): seq<Tx> {
    if q == [] then [] else q[0].txs + FlatChannel(q[1..])
  }

  function FlatRelays(rs: seq<seq<Relay>>, k: nat): seq<Tx>
    requires k <= |rs|
  {
    if k == 0 then [] else FlatRelays(rs, k - 1) + FlatChannel(rs[k - 1])
  }

  function FlatQueue(q: seq<SupMsg>): seq<Tx> {
    if q == [] then []
    else (if q[0].InjectMsg? then q[0].txs else []) + FlatQueue(q[1..])
  }

  /** The transactions at one shard or on the way to it. Collected parcels count
      until proposePartition has copied them into the pool. */
  function NodeTxs(nd: Node, n: nat): seq<Tx> {
    nd.l.pool + Body(nd) + FlatRelays(nd.relays, |nd.relays|) + ParcelTxs(nd.parcelsIn, n)
    + (if nd.l.stage.PartitionPending? then [] else ParcelTxs(nd.l.parcels, n))
    + FlatQueue(nd.fromSup)
  }

  function Contents(c: Config, st: System): (r: seq<seq<Tx>>)
    ensures |r| == |st.nodes|
  {
    seq(|st.nodes|, i requires 0 <= i < |st.nodes| => NodeTxs(st.nodes[i], c.n))
  }

  function Concat(parts: seq<seq<Tx>>, k: nat): seq<Tx>
    requires k <= |parts|
  {
    if k == 0 then [] else Concat(parts, k - 1) + parts[k - 1]
  }

  /** Every transaction that has been injected and not yet finished. */
  function Outstanding(c: Config, st: System): seq<Tx> {
    Concat(Contents(c, st), |st.nodes|)
  }

  // ------------------------------------------------ weights of the parts

  function NodeW(w: Tx -> int, nd: Node, n: nat): int {
    W(w, nd.l.pool) + W(w, Body(nd)) + W(w, FlatRelays(nd.relays, |nd.relays|))
    + W(w, ParcelTxs(nd.parcelsIn, n))
    + (if nd.l.stage.PartitionPending? then 0 else W(w, ParcelTxs(nd.l.parcels, n)))
    + W(w, FlatQueue(nd.fromSup))
  }

  lemma NodeWeight(w: Tx -> int, nd: Node, n: nat)
    ensures W(w, NodeTxs(nd, n)) == NodeW(w, nd, n)
  {
    var a, b := nd.l.pool, Body(nd);
    var d, e := FlatRelays(nd.relays, |nd.relays|), ParcelTxs(nd.parcelsIn, n);
    var f := if nd.l.stage.PartitionPending? then [] else ParcelTxs(nd.l.parcels, n);
    WAppend(w, a, b);
    WAppend(w, a + b, d);
    WAppend(w, a + b + d, e);
    WAppend(w, a + b + d + e, f);
    WAppend(w, a + b + d + e + f, FlatQueue(nd.fromSup));
  }

  lemma {:induction false} ChannelAppend(w: Tx -> int, q: seq<Relay>, r: Relay)
    ensures W(w, FlatChannel(q + [r])) == W(w, FlatChannel(q)) + W(w, r.txs)
    decreases |q|
  {
    if q == [] {
      assert q + [r] == [r] && [r][1..] == [];
      assert FlatChannel([r]) == r.txs + FlatChannel([]) == r.txs;
    } else {
      assert (q + [r])[1..] == q[1..] + [r];
      ChannelAppend(w, q[1..], r);
      WAppend(w, q[0].txs, FlatChannel(q[1..] + [r]));
      WAppend(w, q[0].txs, FlatChannel(q[1..]));
    }
  }

  lemma RelaysUpdate(w: Tx -> int, rs: seq<seq<Relay>>, j: nat, q: seq<Relay>, k: nat)
    requires j < |rs| && k <= |rs|
    ensures W(w, FlatRelays(rs[j := q], k))
         == W(w, FlatRelays(rs, k)) + if j < k then W(w, FlatChannel(q)) - W(w, FlatChannel(rs[j])) else 0
  {
    RelaysWeigh(w, rs, k);
    RelaysWeigh(w, rs[j := q], k);
    RelaysChange(w, rs, j, q, k);
  }

  /** The weight of the first k channels. */
  function RelaysW(w: Tx -> int, rs: seq<seq<Relay>>, k: nat): int
    requires k <= |rs|
  {
    if k == 0 then 0 else RelaysW(w, rs, k - 1) + W(w, FlatChannel(rs[k - 1]))
  }

  lemma {:induction false} RelaysWeigh(w: Tx -> int, rs: seq<seq<Relay>>, k: nat)
    requires k <= |rs|
    ensures W(w, FlatRelays(rs, k)) == RelaysW(w, rs, k)
  {
    if k > 0 {
      RelaysWeigh(w, rs, k - 1);
      Joined(w, FlatRelays(rs, k), FlatRelays(rs, k - 1), FlatChannel(rs[k - 1]));
    }
  }

  lemma Joined(w: Tx -> int, all: seq<Tx>, head: seq<Tx>, last: seq<Tx>)
    requires all == head + last
    ensures W(w, all) == W(w, head) + W(w, last)
  {
    WAppend(w, head, last);
  }

  lemma {:induction false} RelaysChange(w: Tx -> int, rs: seq<seq<Relay>>, j: nat, q: seq<Relay>, k: nat)
    requires j < |rs| && k <= |rs|
    ensures RelaysW(w, rs[j := q], k)
         == RelaysW(w, rs, k) + if j < k then W(w, FlatChannel(q)) - W(w, FlatChannel(rs[j])) else 0
  {
    if k > 0 {
      RelaysChange(w, rs, j, q, k - 1);
      if j == k - 1 { assert rs[j := q][k - 1] == q; } else { assert rs[j := q][k - 1] == rs[k - 1]; }
    }
  }

  /** The weight of the parcels from the first k shards. */
  function ParcelsW(w: Tx -> int, ps: map<ShardId, Parcel>, k: nat): int {
    if k == 0 then 0 else ParcelsW(w, ps, k - 1) + if k - 1 in ps then W(w, ps[k - 1].txs) else 0
  }

  lemma {:induction false} ParcelsWeigh(w: Tx -> int, ps: map<ShardId, Parcel>, k: nat)
    ensures W(w, ParcelTxs(ps, k)) == ParcelsW(w, ps, k)
  {
    if k > 0 {
      ParcelsWeigh(w, ps, k - 1);
      WAppend(w, ParcelTxs(ps, k - 1), if k - 1 in ps then ps[k - 1].txs else []);
    }
  }

  lemma {:induction false} ParcelsInsert(w: Tx -> int, ps: map<ShardId, Parcel>, j: ShardId, p: Parcel, k: nat)
    requires j !in ps
    ensures ParcelsW(w, ps[j := p], k) == ParcelsW(w, ps, k) + if j < k then W(w, p.txs) else 0
  {
    if k > 0 { ParcelsInsert(w, ps, j, p, k - 1); }
  }

  lemma ParcelInsert(w: Tx -> int, ps: map<ShardId, Parcel>, j: ShardId, p: Parcel, k: nat)
    requires j !in ps
    ensures W(w, ParcelTxs(ps[j := p], k)) == W(w, ParcelTxs(ps, k)) + if j < k then W(w, p.txs) else 0
  {
    ParcelsWeigh(w, ps, k);
    ParcelsWeigh(w, ps[j := p], k);
    ParcelsInsert(w, ps, j, p, k);
  }

  lemma {:induction false} QueueAppend(w: Tx -> int, q: seq<SupMsg>, m: SupMsg)
    ensures W(w, FlatQueue(q + [m])) == W(w, FlatQueue(q)) + if m.InjectMsg? then W(w, m.txs) else 0
    decreases |q|
  {
    if q == [] {
      assert q + [m] == [m] && [m][1..] == [];
      assert FlatQueue([m]) == (if m.InjectMsg? then m.txs else []) + FlatQueue([]);
      assert FlatQueue([m]) == (if m.InjectMsg? then m.txs else []);
    } else {
      assert (q + [m])[1..] == q[1..] + [m];
      QueueAppend(w, q[1..], m);
      var h := if q[0].InjectMsg? then q[0].txs else [];
      WAppend(w, h, FlatQueue(q[1..] + [m]));
      WAppend(w, h, FlatQueue(q[1..]));
    }
  }

  lemma ConcatOne(w: Tx -> int, ps: seq<seq<Tx>>, ps': seq<seq<Tx>>, s: nat, k: nat)
    requires s < |ps| == |ps'| && k <= |ps|
    requires forall i | 0 <= i < |ps| && i != s :: W(w, ps'[i]) == W(w, ps[i])
    ensures W(w, Concat(ps', k)) == W(w, Concat(ps, k)) + if s < k then W(w, ps'[s]) - W(w, ps[s]) else 0
  {
    ConcatWeigh(w, ps, k);
    ConcatWeigh(w, ps', k);
    SumsOne(Weights(w, ps), Weights(w, ps'), s, k);
  }

  function SumTo(xs: seq<int>, k: nat): int
    requires k <= |xs|
  {
    if k == 0 then 0 else SumTo(xs, k - 1) + xs[k - 1]
  }

  lemma {:induction false} SumsOne(xs: seq<int>, xs': seq<int>, s: nat, k: nat)
    requires s < |xs| == |xs'| && k <= |xs|
    requires forall i | 0 <= i < |xs| && i != s :: xs'[i] == xs[i]
    ensures SumTo(xs', k) == SumTo(xs, k) + if s < k then xs'[s] - xs[s] else 0
  {
    if k > 0 { SumsOne(xs, xs', s, k - 1); }
  }

  lemma {:induction false} SumsSpread(xs: seq<int>, xs': seq<int>, ds: seq<int>, s: nat, k: nat)
    requires s < |xs| == |xs'| == |ds| && k <= |xs|
    requires forall i | 0 <= i < |xs| && i != s :: xs'[i] == xs[i] + ds[i]
    ensures SumTo(xs', k) == SumTo(xs, k) + SumTo(ds, k) + if s < k then xs'[s] - xs[s] - ds[s] else 0
  {
    if k > 0 { SumsSpread(xs, xs', ds, s, k - 1); }
  }

  function Weights(w: Tx -> int, ps: seq<seq<Tx>>): seq<int> {
    seq(|ps|, i requires 0 <= i < |ps| => W(w, ps[i]))
  }

  lemma {:induction false} ConcatWeigh(w: Tx -> int, ps: seq<seq<Tx>>, k: nat)
    requires k <= |ps|
    ensures W(w, Concat(ps, k)) == SumTo(Weights(w, ps), k)
  {
    if k > 0 {
      ConcatWeigh(w, ps, k - 1);
      WAppend(w, Concat(ps, k - 1), ps[k - 1]);
    }
  }

  lemma {:induction false} PartsWeigh(v: Tx -> int, cls: Tx -> nat, txs: seq<Tx>, ds: seq<int>, k: nat)
    requires k <= |ds| && forall i | 0 <= i < |ds| :: ds[i] == W(v, Part(cls, txs, i))
    ensures SumPart(v, cls, txs, k) == SumTo(ds, k)
  {
    if k > 0 { PartsWeigh(v, cls, txs, ds, k - 1); }
  }

  /** Place s hands class i of txs to every other place i. */
  lemma ConcatSpread(w: Tx -> int, v: Tx -> int, cls: Tx -> nat, txs: seq<Tx>,
                     ps: seq<seq<Tx>>, ps': seq<seq<Tx>>, s: nat, k: nat)
    requires s < |ps| == |ps'| && k <= |ps|
    requires forall i | 0 <= i < |ps| && i != s :: W(w, ps'[i]) == W(w, ps[i]) + W(v, Part(cls, txs, i))
    ensures W(w, Concat(ps', k))
         == W(w, Concat(ps, k)) + SumPart(v, cls, txs, k)
          + if s < k then W(w, ps'[s]) - W(w, ps[s]) - W(v, Part(cls, txs, s)) else 0
  {
    ConcatWeigh(w, ps, k);
    ConcatWeigh(w, ps', k);
    var ds := seq(|ps|, i requires 0 <= i < |ps| => W(v, Part(cls, txs, i)));
    PartsWeigh(v, cls, txs, ds, k);
    SumsSpread(Weights(w, ps), Weights(w, ps'), ds, s, k);
  }

  lemma ConcatSame(w: Tx -> int, ps: seq<seq<Tx>>, ps': seq<seq<Tx>>, k: nat)
    requires |ps'| == |ps| && k <= |ps|
    requires forall i | 0 <= i < |ps| :: W(w, ps'[i]) == W(w, ps[i])
    ensures W(w, Concat(ps', k)) == W(w, Concat(ps, k))
  {
    ConcatWeigh(w, ps, k);
    ConcatWeigh(w, ps', k);
    assert Weights(w, ps) == Weights(w, ps');
  }

  // ------------------------------------------------ what each step does to the total

  /** Weight that a step brings in, and weight it takes out of circulation. */
  function Gain(c: Config, st: System, step: Step, w: Tx -> int): int
    requires c.n > 0 && |st.nodes| == c.n
  {
    match step
    case Inject(_, txs) => W(w, txs)
    case FinishBlock(s) =>
      if s < c.n && st.nodes[s].l.stage.BlockPending? then
        var l := st.nodes[s].l;
        W(Relayed(w, FateClass(l.pm, c.n, l.id), l.id), l.stage.body) - W(w, l.stage.body)
      else 0
    case _ => 0
  }

  lemma OneNodeStep(c: Config, st: System, st': System, s: ShardId, w: Tx -> int)
    requires s < |st.nodes| && |st'.nodes| == |st.nodes| && st'.nodes == st.nodes[s := st'.nodes[s]]
    ensures W(w, Outstanding(c, st'))
         == W(w, Outstanding(c, st)) + NodeW(w, st'.nodes[s], c.n) - NodeW(w, st.nodes[s], c.n)
  {
    ContentsAt(c, st, s, w);
    ContentsAt(c, st', s, w);
    ConcatOne(w, Contents(c, st), Contents(c, st'), s, |st.nodes|);
  }

  lemma ContentsAt(c: Config, st: System, i: nat, w: Tx -> int)
    requires i < |st.nodes|
    ensures W(w, Contents(c, st)[i]) == NodeW(w, st.nodes[i], c.n)
  {
    NodeWeight(w, st.nodes[i], c.n);
  }

  lemma SpreadStep(c: Config, st: System, st': System, s: ShardId, cls: Tx -> nat, txs: seq<Tx>, w: Tx -> int,
                   v: Tx -> int)
    requires s < |st.nodes| == |st'.nodes| == c.n
    requires forall i | 0 <= i < c.n && i != s ::
               NodeW(w, st'.nodes[i], c.n) == NodeW(w, st.nodes[i], c.n) + W(v, Part(cls, txs, i))
    requires forall t | t in txs :: cls(t) < c.n
    ensures W(w, Outstanding(c, st'))
         == W(w, Outstanding(c, st)) + W(v, txs)
          + NodeW(w, st'.nodes[s], c.n) - NodeW(w, st.nodes[s], c.n) - W(v, Part(cls, txs, s))
  {
    forall i | 0 <= i < c.n
      ensures W(w, Contents(c, st)[i]) == NodeW(w, st.nodes[i], c.n)
           && W(w, Contents(c, st')[i]) == NodeW(w, st'.nodes[i], c.n)
    {
      NodeWeight(w, st.nodes[i], c.n);
      NodeWeight(w, st'.nodes[i], c.n);
    }
    ConcatSpread(w, v, cls, txs, Contents(c, st), Contents(c, st'), s, c.n);
    PartSum(v, cls, txs, c.n);
  }

  lemma SameStep(c: Config, st: System, st': System, w: Tx -> int)
    requires |st.nodes| == |st'.nodes|
    requires forall i | 0 <= i < |st.nodes| :: NodeW(w, st'.nodes[i], c.n) == NodeW(w, st.nodes[i], c.n)
    ensures W(w, Outstanding(c, st')) == W(w, Outstanding(c, st))
  {
    forall i | 0 <= i < |st.nodes| ensures W(w, Contents(c, st)[i]) == W(w, Contents(c, st')[i]) {
      NodeWeight(w, st.nodes[i], c.n);
      NodeWeight(w, st'.nodes[i], c.n);
    }
    ConcatSame(w, Contents(c, st), Contents(c, st'), |st.nodes|);
  }

  lemma InjectWeight(c: Config, st: System, s: ShardId, txs: seq<Tx>, w: Tx -> int)
    requires Inv(c, st) && Enabled(c, st, Inject(s, txs))
    ensures W(w, Outstanding(c, Apply(c, st, Inject(s, txs)))) == W(w, Outstanding(c, st)) + W(w, txs)
  {
    var st' := Apply(c, st, Inject(s, txs));
    OneNodeStep(c, st, st', s, w);
    QueueAppend(w, st.nodes[s].fromSup, InjectMsg(txs));
  }

  lemma QueuePop(w: Tx -> int, q: seq<SupMsg>)
    requires q != []
    ensures W(w, FlatQueue(q)) == W(w, FlatQueue(q[1..])) + if q[0].InjectMsg? then W(w, q[0].txs) else 0
  {
    WAppend(w, if q[0].InjectMsg? then q[0].txs else [], FlatQueue(q[1..]));
  }

  lemma InjectMoves(w: Tx -> int, n: nat, nd: Node)
    requires nd.fromSup != [] && nd.fromSup[0].InjectMsg?
    ensures NodeW(w, nd.(l := HandleInject(nd.l, nd.fromSup[0].txs), fromSup := nd.fromSup[1..]), n) == NodeW(w, nd, n)
  {
    QueuePop(w, nd.fromSup);
    WAppend(w, nd.l.pool, nd.fromSup[0].txs);
  }

  lemma DeliverFromSupWeight(c: Config, st: System, s: ShardId, w: Tx -> int)
    requires c.n > 0 && |st.nodes| == c.n && Enabled(c, st, DeliverFromSup(s))
    ensures W(w, Outstanding(c, Apply(c, st, DeliverFromSup(s)))) == W(w, Outstanding(c, st))
  {
    var nd := st.nodes[s];
    if nd.fromSup[0].InjectMsg? { InjectMoves(w, c.n, nd); } else { QueuePop(w, nd.fromSup); }
    OneNodeStep(c, st, Apply(c, st, DeliverFromSup(s)), s, w);
  }

  lemma BlockMoves(w: Tx -> int, n: nat, nd: Node, size: nat)
    requires size <= |nd.l.pool| && nd.l.stage.Idle?
    ensures NodeW(w, nd.(l := ProposeBlock(nd.l, size)), n) == NodeW(w, nd, n)
  {
    assert nd.l.pool == nd.l.pool[..size] + nd.l.pool[size..];
    WAppend(w, nd.l.pool[..size], nd.l.pool[size..]);
  }

  lemma StartBlockWeight(c: Config, st: System, s: ShardId, size: nat, w: Tx -> int)
    requires Inv(c, st) && Enabled(c, st, StartBlock(s, size))
    ensures W(w, Outstanding(c, Apply(c, st, StartBlock(s, size)))) == W(w, Outstanding(c, st))
  {
    BlockMoves(w, c.n, st.nodes[s], size);
    OneNodeStep(c, st, Apply(c, st, StartBlock(s, size)), s, w);
  }

  lemma DeliverRelayWeight(c: Config, st: System, s: ShardId, from: ShardId, w: Tx -> int)
    requires Inv(c, st) && Enabled(c, st, DeliverRelay(s, from))
    ensures W(w, Outstanding(c, Apply(c, st, DeliverRelay(s, from)))) == W(w, Outstanding(c, st))
  {
    var st' := Apply(c, st, DeliverRelay(s, from));
    var nd := st.nodes[s];
    RelayMoves(w, nd, from, c.n);
    OneNodeStep(c, st, st', s, w);
  }

  lemma RelayMoves(w: Tx -> int, nd: Node, from: ShardId, n: nat)
    requires from < |nd.relays| && nd.relays[from] != []
    ensures var nd' := nd.(l := HandleRelay(nd.l, from, nd.relays[from][0]),
                           relays := nd.relays[from := nd.relays[from][1..]]);
            NodeW(w, nd', n) == NodeW(w, nd, n)
  {
    var q := nd.relays[from];
    RelaysUpdate(w, nd.relays, from, q[1..], |nd.relays|);
    WAppend(w, q[0].txs, FlatChannel(q[1..]));
    WAppend(w, nd.l.pool, q[0].txs);
  }

  lemma ParcelMoves(w: Tx -> int, n: nat, nd: Node, from: ShardId)
    requires from in nd.parcelsIn && from !in nd.l.parcels && !nd.l.stage.PartitionPending?
    ensures NodeW(w, nd.(l := HandleParcel(nd.l, n, from, nd.parcelsIn[from]), parcelsIn := nd.parcelsIn - {from}), n)
         == NodeW(w, nd, n)
  {
    var p := nd.parcelsIn[from];
    var rest := nd.parcelsIn - {from};
    assert rest[from := p] == nd.parcelsIn;
    ParcelInsert(w, rest, from, p, n);
    ParcelInsert(w, nd.l.parcels, from, p, n);
  }

  lemma DeliverParcelWeight(c: Config, st: System, s: ShardId, from: ShardId, w: Tx -> int)
    requires Inv(c, st) && Enabled(c, st, DeliverParcel(s, from))
    ensures W(w, Outstanding(c, Apply(c, st, DeliverParcel(s, from)))) == W(w, Outstanding(c, st))
  {
    PendingHasAll(c, st, s, from);
    ParcelMoves(w, c.n, st.nodes[s], from);
    OneNodeStep(c, st, Apply(c, st, DeliverParcel(s, from)), s, w);
  }

  lemma PendingHasAll(c: Config, st: System, s: ShardId, k: ShardId)
    requires Inv(c, st) && s < c.n && k in st.nodes[s].parcelsIn
    ensures !st.nodes[s].l.stage.PartitionPending? && k !in st.nodes[s].l.parcels
  {
    assert NodeInv(c, st.sup, st.nodes[s], s);
    assert PairInv(c, st.sup, st.nodes[s], st.nodes[k], s, k);
    if st.nodes[s].l.stage.PartitionPending? { M.ApplyingHeardAll(c, st, s, k); }
  }

  lemma StartPartitionWeight(c: Config, st: System, s: ShardId, received: seq<Tx>, states: Trie, w: Tx -> int)
    requires c.n > 0 && |st.nodes| == c.n && Enabled(c, st, StartPartition(s, received, states))
    ensures W(w, Outstanding(c, Apply(c, st, StartPartition(s, received, states)))) == W(w, Outstanding(c, st))
  {
    StartPartitionNodeW(w, c.n, st.nodes[s], received, states);
    OneNodeStep(c, st, Apply(c, st, StartPartition(s, received, states)), s, w);
  }

  /** The collected transactions go from the parcels into the pool. */
  lemma StartPartitionNodeW(w: Tx -> int, n: nat, nd: Node, received: seq<Tx>, states: Trie)
    requires nd.l.stage.Collecting? && nd.l.round < |nd.l.modifiedMap|
    requires multiset(received) == multiset(ParcelTxs(nd.l.parcels, n))
    ensures NodeW(w, nd.(l := ProposePartition(nd.l, received, states)), n) == NodeW(w, nd, n)
  {
    WAppend(w, nd.l.pool, received);
    WPermute(w, received, ParcelTxs(nd.l.parcels, n));
  }

  lemma {:induction false} NoParcels(w: Tx -> int, ps: map<ShardId, Parcel>, k: nat)
    requires ps == map[]
    ensures W(w, ParcelTxs(ps, k)) == 0
  {
    if k > 0 {
      NoParcels(w, ps, k - 1);
      assert ParcelTxs(ps, k) == ParcelTxs(ps, k - 1) + [] == ParcelTxs(ps, k - 1);
    }
  }

  lemma FinishPartitionWeight(c: Config, st: System, s: ShardId, w: Tx -> int)
    requires c.n > 0 && |st.nodes| == c.n && Enabled(c, st, FinishPartition(s))
    ensures W(w, Outstanding(c, Apply(c, st, FinishPartition(s)))) == W(w, Outstanding(c, st))
  {
    var st' := Apply(c, st, FinishPartition(s));
    FinishPartitionNodeW(w, c.n, st.nodes[s], st'.nodes[s].applied);
    OneNodeStep(c, st, st', s, w);
  }

  /** The parcels that are dropped are already in the pool. */
  lemma FinishPartitionNodeW(w: Tx -> int, n: nat, nd: Node, applied: seq<nat>)
    requires n > 0 && nd.l.stage.PartitionPending?
    ensures NodeW(w, nd.(l := TransferAccounts(nd.l, n), applied := applied), n) == NodeW(w, nd, n)
  {
    NoParcels(w, map[], n);
  }

  lemma StartMigrationWeight(c: Config, st: System, m: PartitionMap, w: Tx -> int)
    requires Inv(c, st) && Enabled(c, st, StartMigration(m))
    ensures W(w, Outstanding(c, Apply(c, st, StartMigration(m)))) == W(w, Outstanding(c, st))
  {
    var st' := Apply(c, st, StartMigration(m));
    forall i | 0 <= i < c.n ensures NodeW(w, st'.nodes[i], c.n) == NodeW(w, st.nodes[i], c.n) {
          QueueAppend(w, st.nodes[i].fromSup, PartitionMsg(m));
    }
    SameStep(c, st, st', w);
  }

  lemma EnterBarrierWeight(c: Config, st: System, s: ShardId, w: Tx -> int)
    requires Inv(c, st) && Enabled(c, st, EnterBarrier(s))
    ensures W(w, Outstanding(c, Apply(c, st, EnterBarrier(s)))) == W(w, Outstanding(c, st))
  {
    var st' := Apply(c, st, EnterBarrier(s));
    forall i | 0 <= i < c.n ensures NodeW(w, st'.nodes[i], c.n) == NodeW(w, st.nodes[i], c.n) {}
    SameStep(c, st, st', w);
  }

  lemma PassBarrierOne(c: Config, st: System, s: ShardId, i: ShardId, w: Tx -> int)
    requires Inv(c, st) && Enabled(c, st, PassBarrier(s)) && i < c.n && i != s
    ensures var st' := Apply(c, st, PassBarrier(s));
            NodeW(w, st'.nodes[i], c.n)
            == NodeW(w, st.nodes[i], c.n) + W(w, ParcelFor(st.nodes[s].l, c.n, i).txs)
  {
    var st' := Apply(c, st, PassBarrier(s));
    assert NodeInv(c, st.sup, st.nodes[s], s);
    assert PairInv(c, st.sup, st.nodes[i], st.nodes[s], i, s);
    assert TransferOk(c, st.sup, st.nodes[i], st.nodes[s], i, s);
    ParcelInsert(w, st.nodes[i].parcelsIn, s, ParcelFor(st.nodes[s].l, c.n, i), c.n);
  }

  lemma MoveInRange(c: Config, st: System, s: ShardId)
    requires Inv(c, st) && Enabled(c, st, PassBarrier(s))
    ensures var l := st.nodes[s].l;
            l.id == s && forall t | t in l.pool :: MoveClass(LastMap(l), l.pm, c.n, l.id)(t) < c.n
  {
    var l := st.nodes[s].l;
    assert NodeInv(c, st.sup, st.nodes[s], s);
    assert RoundOk(st.sup, st.nodes[s]);
    assert LastMap(l) == st.sup.current.value;
  }

  lemma PassBarrierWeight(c: Config, st: System, s: ShardId, w: Tx -> int)
    requires Inv(c, st) && Enabled(c, st, PassBarrier(s))
    ensures W(w, Outstanding(c, Apply(c, st, PassBarrier(s)))) == W(w, Outstanding(c, st))
  {
    var st' := DoPassBarrier(c, st, s);
    var l := st.nodes[s].l;
    MoveInRange(c, st, s);
    var cls := MoveClass(LastMap(l), l.pm, c.n, l.id);
    forall i | 0 <= i < c.n && i != s
      ensures NodeW(w, st'.nodes[i], c.n) == NodeW(w, st.nodes[i], c.n) + W(w, Part(cls, l.pool, i))
    {
      PassBarrierOne(c, st, s, i, w);
    }
    PassBarrierSum(c, st, s, w);
  }

  lemma PassBarrierSum(c: Config, st: System, s: ShardId, w: Tx -> int)
    requires s < c.n == |st.nodes| && st.nodes[s].l.modifiedMap != [] && st.nodes[s].l.stage.Waiting?
             && st.nodes[s].l.id == s
    requires var l := st.nodes[s].l;
             var cls := MoveClass(LastMap(l), l.pm, c.n, l.id);
             && (forall t | t in l.pool :: cls(t) < c.n)
             && forall i | 0 <= i < c.n && i != s ::
                  NodeW(w, DoPassBarrier(c, st, s).nodes[i], c.n)
                      == NodeW(w, st.nodes[i], c.n) + W(w, Part(cls, l.pool, i))
    ensures W(w, Outstanding(c, DoPassBarrier(c, st, s))) == W(w, Outstanding(c, st))
  {
    var l := st.nodes[s].l;
    SpreadStep(c, st, DoPassBarrier(c, st, s), s, MoveClass(LastMap(l), l.pm, c.n, l.id), l.pool, w, w);
    ShipWeight(w, st.nodes[s], c.n);
  }

  lemma ShipWeight(w: Tx -> int, nd: Node, n: nat)
    requires n > 0 && nd.l.modifiedMap != [] && nd.l.stage.Waiting?
    ensures NodeW(w, nd.(l := SendAccounts(nd.l, n)), n)
         == NodeW(w, nd, n) - W(w, nd.l.pool)
             + W(w, Part(MoveClass(LastMap(nd.l), nd.l.pm, n, nd.l.id), nd.l.pool, nd.l.id))
  {
  }

  /** A routed transaction always has a destination among the shards. */
  lemma FateInRange(c: Config, st: System, s: ShardId)
    requires Inv(c, st) && s < c.n && st.nodes[s].l.stage.BlockPending?
    ensures forall t | t in st.nodes[s].l.stage.body ::
              && FateOf(st.nodes[s].l.pm, c.n, s, t) != Incorrect
              && FateClass(st.nodes[s].l.pm, c.n, s)(t) < c.n
  {
    var l := st.nodes[s].l;
    assert NodeInv(c, st.sup, st.nodes[s], s);
    assert InRange(l.pm, c.n);
    forall t | t in l.stage.body ensures FateOf(l.pm, c.n, s, t) != Incorrect && FateClass(l.pm, c.n, s)(t) < c.n {
      assert t in Body(st.nodes[s]);
    }
  }

  lemma FinishBlockOne(c: Config, st: System, s: ShardId, i: ShardId, w: Tx -> int)
    requires Inv(c, st) && Enabled(c, st, FinishBlock(s)) && i < c.n && i != s
    ensures var st' := Apply(c, st, FinishBlock(s));
            NodeW(w, st'.nodes[i], c.n)
            == NodeW(w, st.nodes[i], c.n) + W(w, RelayFor(st.nodes[s].l, c.n, i).txs)
  {
    var st' := Apply(c, st, FinishBlock(s));
    var nd, r := st.nodes[i], RelayFor(st.nodes[s].l, c.n, i);
    assert NodeInv(c, st.sup, nd, i);
    ChannelAppend(w, nd.relays[s], r);
    RelaysUpdate(w, nd.relays, s, nd.relays[s] + [r], |nd.relays|);
  }

  lemma FinishBlockRelayed(c: Config, st: System, s: ShardId, i: ShardId, w: Tx -> int)
    requires Inv(c, st) && Enabled(c, st, FinishBlock(s)) && i < c.n && i != s
    ensures var l := st.nodes[s].l;
            var cls := FateClass(l.pm, c.n, s);
            NodeW(w, Apply(c, st, FinishBlock(s)).nodes[i], c.n)
            == NodeW(w, st.nodes[i], c.n) + W(Relayed(w, cls, s), Part(cls, l.stage.body, i))
  {
    var l := st.nodes[s].l;
    assert NodeInv(c, st.sup, st.nodes[s], s);
    var cls := FateClass(l.pm, c.n, s);
    FinishBlockOne(c, st, s, i, w);
    WMark(w, cls, s, Part(cls, l.stage.body, i), i);
  }

  lemma FinishBlockWeight(c: Config, st: System, s: ShardId, w: Tx -> int)
    requires Inv(c, st) && Enabled(c, st, FinishBlock(s))
    ensures W(w, Outstanding(c, Apply(c, st, FinishBlock(s))))
         == W(w, Outstanding(c, st)) + Gain(c, st, FinishBlock(s), w)
  {
    var st' := Apply(c, st, FinishBlock(s));
    var l := st.nodes[s].l;
    assert NodeInv(c, st.sup, st.nodes[s], s);
    var cls := FateClass(l.pm, c.n, s);
    var v := Relayed(w, cls, s);
    forall i | 0 <= i < c.n && i != s
      ensures NodeW(w, st'.nodes[i], c.n) == NodeW(w, st.nodes[i], c.n) + W(v, Part(cls, l.stage.body, i))
    {
      FinishBlockRelayed(c, st, s, i, w);
    }
    FateInRange(c, st, s);
    SpreadStep(c, st, st', s, cls, l.stage.body, w, v);
    WZero(v, Part(cls, l.stage.body, s));
    CommitWeight(w, st.nodes[s], c.n);
  }

  lemma CommitWeight(w: Tx -> int, nd: Node, n: nat)
    requires n > 0 && nd.l.stage.BlockPending?
    ensures NodeW(w, nd.(l := CommitBlock(nd.l, n)), n) == NodeW(w, nd, n) - W(w, nd.l.stage.body)
  {
    assert W(w, Body(nd.(l := CommitBlock(nd.l, n)))) == 0;
  }

  lemma StepWeight(c: Config, st: System, step: Step, w: Tx -> int)
    requires Inv(c, st) && Enabled(c, st, step)
    ensures W(w, Outstanding(c, Apply(c, st, step))) == W(w, Outstanding(c, st)) + Gain(c, st, step, w)
  {
    match step
    case Inject(s, txs) => InjectWeight(c, st, s, txs, w);
    case DeliverFromSup(s) => DeliverFromSupWeight(c, st, s, w);
    case StartBlock(s, size) => StartBlockWeight(c, st, s, size, w);
    case FinishBlock(s) => FinishBlockWeight(c, st, s, w);
    case DeliverRelay(s, from) => DeliverRelayWeight(c, st, s, from, w);
    case DeliverInfo(k) =>
    case StartMigration(m) => StartMigrationWeight(c, st, m, w);
    case EnterBarrier(s) => EnterBarrierWeight(c, st, s, w);
    case DeliverReady(s, from) => OneNodeStep(c, st, Apply(c, st, step), s, w);
    case PassBarrier(s) => PassBarrierWeight(c, st, s, w);
    case DeliverParcel(s, from) => DeliverParcelWeight(c, st, s, from, w);
    case StartPartition(s, received, states) => StartPartitionWeight(c, st, s, received, states, w);
    case FinishPartition(s) => FinishPartitionWeight(c, st, s, w);
    case ReplicaApply(s, node) => OneNodeStep(c, st, Apply(c, st, step), s, w);
    case DeliverAck(ack) =>
    case FinishMigration =>
  }
}
