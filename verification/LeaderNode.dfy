/** The leader as the program runs it: an object whose handlers update its
    fields in place. Every method is proved against the function of the same
    purpose in module Leaders, which is what the system theorems speak of. */
module LeaderNodes {
  import opened Ledger
  import L = Leaders

  lemma AllBalances(trie: Trie, pm: PartitionMap, n: nat, s: ShardId, txs: seq<Tx>)
    requires n > 0
    ensures forall a: Addr :: Balance(ExecBlock(trie, pm, n, s, txs), a)
              == Balance(trie, a) + W(LocalEffect(pm, n, s, a), GoThrough(trie, pm, n, s, txs))
  {
    forall a: Addr ensures Balance(ExecBlock(trie, pm, n, s, txs), a)
                        == Balance(trie, a) + W(LocalEffect(pm, n, s, a), GoThrough(trie, pm, n, s, txs))
    {
      BlockBalances(trie, pm, n, s, txs, a);
    }
  }

  /** GetUpdateStatusTrie */
  method UpdateStatusTrie(trie: Trie, pm: PartitionMap, n: nat, s: ShardId, txs: seq<Tx>) returns (st: Trie)
    requires n > 0
    ensures st == ExecBlock(trie, pm, n, s, txs)
    ensures forall a: Addr ::
              Balance(st, a) == Balance(trie, a) + W(LocalEffect(pm, n, s, a), GoThrough(trie, pm, n, s, txs))
  {
    st := trie;
    if |txs| == 0 {
      AllBalances(trie, pm, n, s, txs);
      return;
    }
    assert txs[..0] == [];
    for i := 0 to |txs|
      invariant st == ExecBlock(trie, pm, n, s, txs[..i])
    {
      var tx := txs[i];
      assert txs[..i + 1] == txs[..i] + [tx];
      ExecAppend(trie, pm, n, s, txs[..i], tx);
      if !tx.relayed && Owner(pm, n, tx.sender) == s {
        var sBalance := if tx.sender in st then st[tx.sender] else INIT_BALANCE;
        if sBalance < tx.value { continue; }
        st := st[tx.sender := sBalance - tx.value];
      }
      if Owner(pm, n, tx.recipient) == s {
        var rBalance := if tx.recipient in st then st[tx.recipient] else INIT_BALANCE;
        st := st[tx.recipient := rBalance + tx.value];
      }
    }
    assert txs[..|txs|] == txs;
    AllBalances(trie, pm, n, s, txs);
  }

  /** The two-pointer loop of sendAccounts_and_Txs: take out of the queue the
      transactions whose deciding account is in addrSet, keep the others in order. */
  method Compact(queue: seq<Tx>, addrSet: set<Addr>, ghost cls: Tx -> nat, ghost i: nat)
    returns (rest: seq<Tx>, sent: seq<Tx>)
    requires forall t | t in queue :: Key(t) in addrSet <==> cls(t) == i
    ensures sent == Part(cls, queue, i)
    ensures rest == Without(cls, queue, i)
  {
    var q := queue;
    sent := [];
    var firstPtr := 0;
    for secondPtr := 0 to |queue|
      invariant |q| == |queue| && firstPtr <= secondPtr
      invariant forall k | secondPtr <= k < |queue| :: q[k] == queue[k]
      invariant q[..firstPtr] == Without(cls, queue[..secondPtr], i)
      invariant sent == Part(cls, queue[..secondPtr], i)
    {
      var ptx := q[secondPtr];
      CompactStep(cls, queue, secondPtr, i);
      var condition1 := ptx.sender in addrSet && !ptx.relayed;
      var condition2 := ptx.recipient in addrSet && ptx.relayed;
      assert ptx in queue;
      if condition1 || condition2 {
        sent := sent + [ptx];
      } else {
        StoreKept(q, firstPtr, ptx);
        q := q[firstPtr := ptx];
        firstPtr := firstPtr + 1;
      }
    }
    assert queue[..|queue|] == queue;
    rest := q[..firstPtr];
  }

  /** AddRelayTx, of a transaction marked as relayed. */
  function AddRelayTx(relayPool: map<ShardId, seq<Tx>>, d: ShardId, tx: Tx): map<ShardId, seq<Tx>> {
    relayPool[d := (if d in relayPool then relayPool[d] else []) + [tx.(relayed := true)]]
  }

  ghost predicate RelaysSorted(relayPool: map<ShardId, seq<Tx>>, cls: Tx -> nat, txs: seq<Tx>, s: ShardId, n: nat) {
    forall k: nat | k != s && k < n :: (if k in relayPool then relayPool[k] else []) == Mark(Part(cls, txs, k))
  }

  lemma RelaysSortedStep(relayPool: map<ShardId, seq<Tx>>, cls: Tx -> nat, body: seq<Tx>, i: nat, s: ShardId, n: nat)
    requires i < |body| && RelaysSorted(relayPool, cls, body[..i], s, n)
    ensures cls(body[i]) == s || cls(body[i]) >= n ==> RelaysSorted(relayPool, cls, body[..i + 1], s, n)
    ensures cls(body[i]) != s ==> RelaysSorted(AddRelayTx(relayPool, cls(body[i]), body[i]), cls, body[..i + 1], s, n)
  {
    var d, after := cls(body[i]), AddRelayTx(relayPool, cls(body[i]), body[i]);
    if d == s || d >= n {
      forall k: nat | k != s && k < n
        ensures (if k in relayPool then relayPool[k] else []) == Mark(Part(cls, body[..i + 1], k))
      {
        RelaysSortedAt(relayPool, cls, body, i, k);
      }
    }
    if d != s {
      forall k: nat | k != s && k < n
        ensures (if k in after then after[k] else []) == Mark(Part(cls, body[..i + 1], k))
      {
        RelaysSortedAt(relayPool, cls, body, i, k);
      }
    }
  }

  lemma RelaysSortedAt(relayPool: map<ShardId, seq<Tx>>, cls: Tx -> nat, body: seq<Tx>, i: nat, k: nat)
    requires i < |body| && (if k in relayPool then relayPool[k] else []) == Mark(Part(cls, body[..i], k))
    ensures Mark(Part(cls, body[..i + 1], k))
         == (if k in relayPool then relayPool[k] else [])
          + if cls(body[i]) == k then [body[i].(relayed := true)] else []
  {
    CompactStep(cls, body, i, k);
    MarkMore(Part(cls, body[..i], k), body[i]);
  }

  lemma MarkMore(txs: seq<Tx>, tx: Tx)
    ensures Mark(txs + [tx]) == Mark(txs) + [tx.(relayed := true)] && Mark(txs) + [] == Mark(txs) && txs + [] == txs
  {
  }

  /** The body so far, sorted: relays by destination, and the two lists of finished transactions. */
  ghost predicate Sorted(cls: Tx -> nat, s: ShardId, n: nat, txs: seq<Tx>,
                         relayPool: map<ShardId, seq<Tx>>, inner: seq<Tx>, relay2: seq<Tx>)
  {
    && RelaysSorted(relayPool, cls, txs, s, n)
    && multiset(inner) + multiset(relay2) == multiset(Part(cls, txs, s))
    && (forall t | t in inner :: !t.relayed) && (forall t | t in relay2 :: t.relayed)
  }

  lemma SortedStep(cls: Tx -> nat, s: ShardId, n: nat, body: seq<Tx>, i: nat,
                   relayPool: map<ShardId, seq<Tx>>, inner: seq<Tx>, relay2: seq<Tx>)
    requires i < |body| && s < n && Sorted(cls, s, n, body[..i], relayPool, inner, relay2)
    ensures var tx, d := body[i], cls(body[i]);
            && (d >= n ==> Sorted(cls, s, n, body[..i + 1], relayPool, inner, relay2))
            && (d != s ==> Sorted(cls, s, n, body[..i + 1], AddRelayTx(relayPool, d, tx), inner, relay2))
            && (d == s && tx.relayed ==> Sorted(cls, s, n, body[..i + 1], relayPool, inner, relay2 + [tx]))
            && (d == s && !tx.relayed ==> Sorted(cls, s, n, body[..i + 1], relayPool, inner + [tx], relay2))
  {
    RelaysSortedStep(relayPool, cls, body, i, s, n);
    FinalsStep(cls, s, body, i, inner, relay2);
  }

  lemma FinalsStep(cls: Tx -> nat, s: ShardId, body: seq<Tx>, i: nat, inner: seq<Tx>, relay2: seq<Tx>)
    requires i < |body| && multiset(inner) + multiset(relay2) == multiset(Part(cls, body[..i], s))
    ensures var next := multiset(Part(cls, body[..i + 1], s));
            if cls(body[i]) == s
            then multiset(inner + [body[i]]) + multiset(relay2) == next
                == multiset(inner) + multiset(relay2 + [body[i]])
            else multiset(inner) + multiset(relay2) == next
  {
    CompactStep(cls, body, i, s);
    if cls(body[i]) != s { assert Part(cls, body[..i], s) + [] == Part(cls, body[..i], s); }
  }

  /** The classification loop of HandleinCommit. Transactions of neither kind are skipped. */
  method Classify(pm: PartitionMap, n: nat, s: ShardId, body: seq<Tx>)
    returns (relayPool: map<ShardId, seq<Tx>>, inner: seq<Tx>, relay2: seq<Tx>)
    requires s < n
    ensures Sorted(FateClass(pm, n, s), s, n, body, relayPool, inner, relay2)
  {
    ghost var cls := FateClass(pm, n, s);
    relayPool, inner, relay2 := map[], [], [];
    for i := 0 to |body|
      invariant Sorted(cls, s, n, body[..i], relayPool, inner, relay2)
    {
      relayPool, inner, relay2 := ClassifyOne(pm, n, s, body, i, relayPool, inner, relay2);
    }
    assert body[..|body|] == body;
  }

  /** One iteration: what to do with the i-th transaction. */
  method ClassifyOne(pm: PartitionMap, n: nat, s: ShardId, body: seq<Tx>, i: nat,
                     pool: map<ShardId, seq<Tx>>, inner0: seq<Tx>, relay20: seq<Tx>)
    returns (relayPool: map<ShardId, seq<Tx>>, inner: seq<Tx>, relay2: seq<Tx>)
    requires s < n && i < |body| && Sorted(FateClass(pm, n, s), s, n, body[..i], pool, inner0, relay20)
    ensures Sorted(FateClass(pm, n, s), s, n, body[..i + 1], relayPool, inner, relay2)
  {
    relayPool, inner, relay2 := pool, inner0, relay20;
    var tx := body[i];
    SortedStep(FateClass(pm, n, s), s, n, body, i, relayPool, inner, relay2);
    var ssid, rsid := Owner(pm, n, tx.sender), Owner(pm, n, tx.recipient);
    if !tx.relayed && ssid != s { return; }
    if tx.relayed && rsid != s { return; }
    if rsid != s {
      relayPool := AddRelayTx(relayPool, rsid, tx);
    } else if tx.relayed {
      relay2 := relay2 + [tx];
    } else {
      inner := inner + [tx];
    }
  }

  lemma StoreKept(q: seq<Tx>, k: nat, tx: Tx)
    requires k < |q|
    ensures q[k := tx][..k + 1] == q[..k] + [tx]
  {}

  lemma CompactStep(cls: Tx -> nat, queue: seq<Tx>, k: nat, i: nat)
    requires k < |queue|
    ensures var tx := queue[k];
            && Part(cls, queue[..k + 1], i) == Part(cls, queue[..k], i) + (if cls(tx) == i then [tx] else [])
            && Without(cls, queue[..k + 1], i) == Without(cls, queue[..k], i) + (if cls(tx) == i then [] else [tx])
  {
    assert queue[..k + 1] == queue[..k] + [queue[k]];
    PartAppend(cls, queue[..k], [queue[k]], i);
    WithoutAppend(cls, queue[..k], queue[k], i);
  }

  function Without(cls: Tx -> nat, txs: seq<Tx>, k: nat): (r: seq<Tx>)
    ensures forall t | t in r :: t in txs && cls(t) != k
  {
    if txs == [] then []
    else (if cls(txs[0]) == k then [] else [txs[0]]) + Without(cls, txs[1..], k)
  }

  lemma {:induction false} WithoutAppend(cls: Tx -> nat, txs: seq<Tx>, tx: Tx, k: nat)
    ensures Without(cls, txs + [tx], k) == Without(cls, txs, k) + if cls(tx) == k then [] else [tx]
    decreases |txs|
  {
    var last := if cls(tx) == k then [] else [tx];
    if txs == [] {
      assert txs + [tx] == [tx] && [tx][1..] == [];
      assert Without(cls, [tx], k) == last + Without(cls, [], k);
    } else {
      var rest := txs[1..];
      assert (txs + [tx])[1..] == rest + [tx] && (txs + [tx])[0] == txs[0];
      WithoutAppend(cls, rest, tx, k);
      var head := if cls(txs[0]) == k then [] else [txs[0]];
      assert Without(cls, txs + [tx], k) == head + (Without(cls, rest, k) + last);
      assert head + (Without(cls, rest, k) + last) == (head + Without(cls, rest, k)) + last;
    }
  }

  /** Removing one class leaves the others as they were. */
  lemma {:induction false} PartWithout(cls: Tx -> nat, txs: seq<Tx>, i: nat, k: nat)
    requires i != k
    ensures Part(cls, Without(cls, txs, i), k) == Part(cls, txs, k)
    decreases |txs|
  {
    if txs != [] {
      PartWithout(cls, txs[1..], i, k);
      var rest := Without(cls, txs[1..], i);
      if cls(txs[0]) != i { assert ([txs[0]] + rest)[1..] == rest; } else { assert [] + rest == rest; }
    }
  }

  lemma {:induction false} PartAll(cls: Tx -> nat, txs: seq<Tx>, k: nat)
    requires forall t | t in txs :: cls(t) == k
    ensures Part(cls, txs, k) == txs
    decreases |txs|
  {
    if txs != [] { PartAll(cls, txs[1..], k); }
  }

  /** FetchAccounts, for the accounts that the map m takes from shard s to shard i. */
  method FetchAccounts(m: PartitionMap, pm: PartitionMap, n: nat, s: ShardId, trie: Trie, i: ShardId)
    returns (states: Trie)
    requires n > 0
    ensures states == map a | a in m && m[a] == i && i != s && Owner(pm, n, a) == s :: Balance(trie, a)
  {
    states := map[];
    var todo := m.Keys;
    while todo != {}
      invariant todo <= m.Keys
      invariant forall a :: a in states <==> a in m && a !in todo && m[a] == i && i != s && Owner(pm, n, a) == s
      invariant forall a | a in states :: states[a] == Balance(trie, a)
      decreases |todo|
    {
      var key :| key in todo;
      if m[key] != s && Owner(pm, n, key) == s && m[key] == i {
        states := states[key := if key in trie then trie[key] else INIT_BALANCE];
      }
      todo := todo - {key};
    }
  }

  /** The map iteration of proposePartition, in whatever order it happens. */
  method Collect(parcels: map<ShardId, L.Parcel>, n: nat) returns (received: seq<Tx>, states: Trie)
    requires forall j | j in parcels :: j < n
    ensures multiset(received) == multiset(L.ParcelTxs(parcels, n)) && L.IsMerge(states, parcels)
  {
    received, states := [], map[];
    var todo := parcels.Keys;
    ghost var seen: map<ShardId, L.Parcel> := map[];
    NoParcelTxs(seen, n);
    while todo != {}
      invariant todo <= parcels.Keys && seen == parcels - todo
      invariant multiset(received) == multiset(L.ParcelTxs(seen, n)) && L.IsMerge(states, seen)
      decreases |todo|
    {
      var j :| j in todo;
      CollectOne(received, states, seen, j, parcels[j], n);
      received, states := received + parcels[j].txs, states + parcels[j].states;
      todo, seen := todo - {j}, seen[j := parcels[j]];
    }
    assert seen == parcels;
  }

  lemma CollectOne(received: seq<Tx>, states: Trie, seen: map<ShardId, L.Parcel>, j: ShardId, p: L.Parcel, n: nat)
    requires multiset(received) == multiset(L.ParcelTxs(seen, n)) && L.IsMerge(states, seen) && j !in seen && j < n
    ensures multiset(received + p.txs) == multiset(L.ParcelTxs(seen[j := p], n))
    ensures L.IsMerge(states + p.states, seen[j := p])
  {
    MergeOne(states, seen, j, p);
    ParcelTxsInsert(seen, j, p, n);
  }

  /** Update_PartitionMap for every entry of a map, in any order. */
  method OverlayMap(pm: PartitionMap, m: PartitionMap) returns (r: PartitionMap)
    ensures r == pm + m
  {
    r := pm;
    var todo := m.Keys;
    while todo != {}
      invariant todo <= m.Keys && r.Keys == pm.Keys + (m.Keys - todo)
      invariant forall a | a in r :: r[a] == if a in m && a !in todo then m[a] else pm[a]
      decreases |todo|
    {
      var a :| a in todo;
      r, todo := r[a := m[a]], todo - {a};
    }
  }

  /** The loop of AddAccounts: only the accounts this shard now owns are stored. */
  method StoreAccounts(trie: Trie, pm: PartitionMap, n: nat, s: ShardId, states: Trie) returns (st: Trie)
    requires n > 0
    ensures st == L.AddAccounts(trie, pm, n, s, states)
  {
    st := trie;
    var addrs := states.Keys;
    while addrs != {}
      invariant addrs <= states.Keys && PartlyStored(trie, pm, n, s, states, addrs, st)
      decreases |addrs|
    {
      var addr :| addr in addrs;
      if Owner(pm, n, addr) == s {
        st := st[addr := states[addr]];
      }
      addrs := addrs - {addr};
    }
    AllStored(trie, pm, n, s, states, st);
  }

  /** All accounts but those in todo have been dealt with. */
  ghost predicate PartlyStored(trie: Trie, pm: PartitionMap, n: nat, s: ShardId, states: Trie, todo: set<Addr>,
                               st: Trie)
    requires n > 0
  {
    && (forall a: Addr :: a in st <==> a in trie || (a in states && a !in todo && Owner(pm, n, a) == s))
    && (forall a | a in st :: st[a] == if a in states && a !in todo && Owner(pm, n, a) == s then states[a] else trie[a])
  }

  lemma AllStored(trie: Trie, pm: PartitionMap, n: nat, s: ShardId, states: Trie, st: Trie)
    requires n > 0 && PartlyStored(trie, pm, n, s, states, {}, st)
    ensures st == L.AddAccounts(trie, pm, n, s, states)
  {
    var all := L.AddAccounts(trie, pm, n, s, states);
    assert forall a: Addr :: a in all <==> a in st;
  }

  class LeaderNode {
    const id: ShardId
    var pm: PartitionMap
    var trie: Trie
    var pool: seq<Tx>
    var sequenceID: nat
    var seqIDMap: map<ShardId, nat>
    var modifiedMap: seq<PartitionMap>
    var round: nat
    var partitionOn: bool
    var partitionReady: set<ShardId>
    var readySeq: map<ShardId, nat>
    var parcels: map<ShardId, L.Parcel>
    var collectOver: bool
    var stage: L.Stage

    function View(): L.Leader
      reads this
    {
      L.Leader(id, pm, trie, pool, sequenceID, seqIDMap, modifiedMap, round, partitionOn,
               partitionReady, readySeq, parcels, collectOver, stage)
    }

    constructor (id: ShardId)
      ensures View() == L.NewLeader(id)
    {
      this.id := id;
      pm, trie, pool, sequenceID, seqIDMap := map[], map[], [], 1, map[];
      modifiedMap, round, partitionOn, partitionReady := [], 0, false, {};
      readySeq, parcels, collectOver, stage := map[], map[], false, L.Idle;
    }

    // ---------------------------------------- messages from outside

    /** AddTxs2Pool */
    method AddTxs2Pool(txs: seq<Tx>)
      modifies this`pool
      ensures pool == old(pool) + txs
    {
      for i := 0 to |txs|
        invariant pool == old(pool) + txs[..i]
      {
        pool := pool + [txs[i]];
        assert txs[..i + 1] == txs[..i] + [txs[i]];
      }
      assert txs[..|txs|] == txs;
    }

    method HandleInjectTx(txs: seq<Tx>)
      modifies this
      ensures View() == L.HandleInject(old(View()), txs)
    {
      AddTxs2Pool(txs);
    }

    method HandleRelay(from: ShardId, relay: L.Relay)
      modifies this
      ensures View() == L.HandleRelay(old(View()), from, relay)
    {
      AddTxs2Pool(relay.txs);
      seqIDMap := seqIDMap[from := relay.senderSeq];
    }

    method HandlePartitionMsg(m: PartitionMap)
      modifies this
      ensures View() == L.HandlePartitionMsg(old(View()), m)
    {
      modifiedMap := modifiedMap + [m];
      partitionOn := true;
    }

    method HandlePartitionReady(from: ShardId, nowSeq: nat)
      modifies this
      ensures View() == L.HandleReady(old(View()), from, nowSeq)
    {
      partitionReady := partitionReady + {from};
      readySeq := readySeq[from := nowSeq];
    }

    method HandleAccountStateAndTx(n: nat, from: ShardId, p: L.Parcel)
      modifies this
      ensures View() == L.HandleParcel(old(View()), n, from, p)
    {
      parcels := parcels[from := p];
      if |parcels| + 1 == n {
        collectOver := true;
      }
    }

    // ---------------------------------------- blocks

    /** PackTxs, then the proposal of GenerateBlock. */
    method ProposeBlock(blockSize: nat) returns (size: nat)
      modifies this
      ensures size == if |old(pool)| < blockSize then |old(pool)| else blockSize
      ensures View() == L.ProposeBlock(old(View()), size)
    {
      size := blockSize;
      if |pool| < size { size := |pool|; }
      stage := L.BlockPending(pool[..size]);
      pool := pool[size..];
    }

    /** HandleinCommit for a block: execute it, then sort its transactions into
        the relay pool and the two lists of finished ones. */
    method CommitBlock(n: nat) returns (relays: seq<L.Relay>, inner: seq<Tx>, relay2: seq<Tx>)
      requires n > 0 && id < n && stage.BlockPending?
      modifies this
      ensures View() == L.CommitBlock(old(View()), n)
      ensures |relays| == n && forall k: nat | k < n && k != id :: relays[k] == L.RelayFor(old(View()), n, k)
      ensures multiset(inner) + multiset(relay2) == multiset(L.Finals(old(View()), n))
      ensures (forall t | t in inner :: !t.relayed) && (forall t | t in relay2 :: t.relayed)
    {
      trie := UpdateStatusTrie(trie, pm, n, id, stage.body);
      var relayPool;
      relayPool, inner, relay2 := Classify(pm, n, id, stage.body);
      var senderSeq := sequenceID;
      relays := seq(n, k requires 0 <= k < n => L.Relay(senderSeq, if k in relayPool then relayPool[k] else []));
      sequenceID := sequenceID + 1;
      stage := L.Idle;
    }

    // ---------------------------------------- migration

    method SendPartitionReady() returns (nowSeq: nat)
      modifies this
      ensures View() == L.SendReady(old(View())) && nowSeq == sequenceID
    {
      partitionReady := partitionReady + {id};
      nowSeq := sequenceID;
      stage := L.Waiting;
    }

    method GetPartitionReady(n: nat) returns (ready: bool)
      ensures ready == L.GetPartitionReady(View(), n)
    {
      var flag := true;
      var todo := seqIDMap.Keys;
      while todo != {}
        invariant todo <= seqIDMap.Keys
        invariant flag == forall j | j in seqIDMap && j !in todo :: j in readySeq && readySeq[j] == seqIDMap[j] + 1
        decreases |todo|
      {
        var sid :| sid in todo;
        if sid !in readySeq || readySeq[sid] != seqIDMap[sid] + 1 {
          flag := false;
        }
        todo := todo - {sid};
      }
      ready := |partitionReady| == n && flag;
    }

    /** One round of the loop over destinations, from what the rounds before it left. */
    method SendTo(n: nat, i: ShardId, ghost l0: L.Leader) returns (p: L.Parcel)
      requires n > 0 && modifiedMap != [] && View() == l0.(pool := pool)
      requires Remaining(MoveClass(L.LastMap(l0), l0.pm, n, id), l0.pool, pool, id, i)
      modifies this`pool
      ensures i != id ==> p == L.ParcelFor(l0, n, i)
      ensures Remaining(MoveClass(L.LastMap(l0), l0.pm, n, id), l0.pool, pool, id, i + 1)
    {
      if i == id {
        p := L.Parcel(map[], []);
        return;
      }
      ghost var cls := MoveClass(L.LastMap(l0), l0.pm, n, id);
      var states := FetchAccounts(modifiedMap[|modifiedMap| - 1], pm, n, id, trie, i);
      var txSend;
      RemainingStep(cls, l0.pool, pool, id, i);
      pool, txSend := Compact(pool, states.Keys, cls, i);
      p := L.Parcel(states, txSend);
    }

    method SendAccountsAndTxs(n: nat) returns (out: seq<L.Parcel>)
      requires n > 0 && id < n && modifiedMap != [] && InRange(modifiedMap[|modifiedMap| - 1], n)
      modifies this
      ensures View() == L.SendAccounts(old(View()), n)
      ensures |out| == n && ParcelsReady(old(View()), n, out)
    {
      ghost var l0 := View();
      ghost var cls := MoveClass(L.LastMap(l0), l0.pm, n, id);
      out := [];
      for i := 0 to n
        invariant View() == l0.(pool := pool)
        invariant Remaining(cls, l0.pool, pool, id, i)
        invariant |out| == i && ParcelsReady(l0, n, out)
      {
        var p := SendTo(n, i, l0);
        ParcelsReadyStep(l0, n, out, p);
        out := out + [p];
      }
      MovesInRange(L.LastMap(l0), l0.pm, n, id, l0.pool);
      RemainingEnd(cls, l0.pool, pool, id, n);
      stage := L.Collecting;
    }

    /** The "error tx" loop. */
    method FindErrorTx(received: seq<Tx>) returns (panics: bool)
      requires round < |modifiedMap|
      ensures panics <==> exists t :: t in received && L.ErrorTx(View(), t)
    {
      panics := false;
      var m := modifiedMap[round];
      for i := 0 to |received|
        invariant panics <==> exists k :: 0 <= k < i && L.ErrorTx(View(), received[k])
      {
        var tx := received[i];
        assert panics ==> exists k :: 0 <= k < i + 1 && L.ErrorTx(View(), received[k]);
        if !tx.relayed && (if tx.sender in m then m[tx.sender] else 0) != id { panics := true; }
        if tx.relayed && (if tx.recipient in m then m[tx.recipient] else 0) != id { panics := true; }
      }
    }

    method ProposePartition(n: nat) returns (panics: bool, received: seq<Tx>, states: Trie)
      requires round < |modifiedMap| && (forall j | j in parcels :: j < n)
      modifies this
      ensures multiset(received) == multiset(L.ParcelTxs(old(parcels), n)) && L.IsMerge(states, old(parcels))
      ensures panics <==> exists t :: t in received && L.ErrorTx(old(View()), t)
      ensures View() == if panics then old(View()) else L.ProposePartition(old(View()), received, states)
    {
      received, states := Collect(parcels, n);
      panics := FindErrorTx(received);
      if panics { return; }
      AddTxs2Pool(received);
      stage := L.PartitionPending(modifiedMap[round], states, |modifiedMap|);
    }

    /** Update_PartitionMap for every entry of the modified map. */
    method UpdatePartitionMap(m: PartitionMap)
      modifies this`pm
      ensures pm == old(pm) + m
    {
      pm := OverlayMap(pm, m);
    }

    method AddAccounts(n: nat, states: Trie)
      requires n > 0
      modifies this`trie
      ensures trie == L.AddAccounts(old(trie), pm, n, id, states)
    {
      trie := StoreAccounts(trie, pm, n, id, states);
    }

    /** A replica that was not sent the map by the supervisor takes it from the request. */
    method RecordMap()
      requires stage.PartitionPending?
      modifies this`modifiedMap
      ensures modifiedMap
           == if |old(modifiedMap)| != stage.atid then old(modifiedMap) + [stage.modified] else old(modifiedMap)
    {
      if |modifiedMap| != stage.atid {
        modifiedMap := modifiedMap + [stage.modified];
      }
    }

    method ResetMigration()
      requires stage.PartitionPending?
      modifies this`modifiedMap, this`round, this`parcels, this`partitionOn, this`collectOver, this`partitionReady,
               this`sequenceID, this`stage
      ensures View() == old(View()).(
                modifiedMap := if |old(modifiedMap)| != old(stage).atid then old(modifiedMap) + [old(stage).modified]
                    else old(modifiedMap),
                round := old(stage).atid, parcels := map[], partitionOn := false, collectOver := false,
                partitionReady := {}, sequenceID := old(sequenceID) + 1, stage := L.Idle)
    {
      RecordMap();
      round := stage.atid;
      parcels, partitionOn, collectOver, partitionReady := map[], false, false, {};
      sequenceID := sequenceID + 1;
      stage := L.Idle;
    }

    /** accountTransfer_do on the leader, and the end of the round. */
    method AccountTransferDo(n: nat)
      requires n > 0 && stage.PartitionPending?
      modifies this
      ensures View() == L.TransferAccounts(old(View()), n)
    {
      UpdatePartitionMap(stage.modified);
      AddAccounts(n, stage.states);
      ResetMigration();
    }
  }

  ghost predicate ParcelsReady(l: L.Leader, n: nat, out: seq<L.Parcel>)
    requires n > 0 && l.modifiedMap != []
  {
    forall k | 0 <= k < |out| && k != l.id :: out[k] == L.ParcelFor(l, n, k)
  }

  lemma ParcelsReadyStep(l: L.Leader, n: nat, out: seq<L.Parcel>, p: L.Parcel)
    requires n > 0 && l.modifiedMap != [] && ParcelsReady(l, n, out)
    requires |out| != l.id ==> p == L.ParcelFor(l, n, |out|)
    ensures ParcelsReady(l, n, out + [p])
  {}

  lemma MovesInRange(m: PartitionMap, pm: PartitionMap, n: nat, s: ShardId, txs: seq<Tx>)
    requires s < n && InRange(m, n)
    ensures forall t | t in txs :: MoveClass(m, pm, n, s)(t) < n
  {}

  /** After the destinations below i: what is left of the pool. */
  ghost predicate Remaining(cls: Tx -> nat, pool0: seq<Tx>, pool: seq<Tx>, s: nat, i: nat) {
    && (forall k: nat | k >= i || k == s :: Part(cls, pool, k) == Part(cls, pool0, k))
    && (forall t | t in pool :: cls(t) == s || cls(t) >= i)
    && (forall t | t in pool :: t in pool0)
  }

  lemma RemainingEnd(cls: Tx -> nat, pool0: seq<Tx>, pool: seq<Tx>, s: nat, n: nat)
    requires Remaining(cls, pool0, pool, s, n) && forall t | t in pool0 :: cls(t) == s || cls(t) < n
    ensures pool == Part(cls, pool0, s)
  {
    assert forall t | t in pool :: cls(t) == s;
    PartAll(cls, pool, s);
  }

  lemma RemainingStep(cls: Tx -> nat, pool0: seq<Tx>, pool: seq<Tx>, s: nat, i: nat)
    requires Remaining(cls, pool0, pool, s, i) && i != s
    ensures Remaining(cls, pool0, Without(cls, pool, i), s, i + 1)
  {
    forall k: nat | k > i || k == s ensures Part(cls, Without(cls, pool, i), k) == Part(cls, pool0, k) {
      PartWithout(cls, pool, i, k);
    }
  }

  lemma {:induction false} NoParcelTxs(ps: map<ShardId, L.Parcel>, k: nat)
    requires ps == map[]
    ensures L.ParcelTxs(ps, k) == []
  {
    if k > 0 { NoParcelTxs(ps, k - 1); }
  }

  lemma {:induction false} ParcelTxsInsert(ps: map<ShardId, L.Parcel>, j: ShardId, p: L.Parcel, k: nat)
    requires j !in ps
    ensures multiset(L.ParcelTxs(ps[j := p], k))
         == multiset(L.ParcelTxs(ps, k)) + if j < k then multiset(p.txs) else multiset{}
  {
    if k > 0 {
      ParcelTxsInsert(ps, j, p, k - 1);
    }
  }

  lemma MergeOne(states: Trie, ps: map<ShardId, L.Parcel>, j: ShardId, p: L.Parcel)
    requires L.IsMerge(states, ps) && j !in ps
    ensures L.IsMerge(states + p.states, ps[j := p])
  {
    var all, qs := states + p.states, ps[j := p];
    forall a | a in all ensures exists i :: i in qs && a in qs[i].states && all[a] == qs[i].states[a] {
      if a in p.states {
        assert j in qs && a in qs[j].states && all[a] == qs[j].states[a];
      } else {
        var i :| i in ps && a in ps[i].states && states[a] == ps[i].states[a];
        assert i in qs && a in qs[i].states && all[a] == qs[i].states[a];
      }
    }
  }
}
