/** The supervisor's committee as the code keeps it: routing of batches, the choice
    of accounts to migrate, confirmations and acknowledgements
    (supervisor/committee/committee_overhead.go). Each method is shown to follow the
    supervisor of module Sharding through the step it performs. */
module Committees {
  import opened Collections
  import opened Ledger
  import opened Sharding
  import opened Invariant
  import opened MigrationPreservation
  import LeaderNodes

  type Frequency = map<Addr, nat>

  function Freq(f: Frequency, a: Addr): nat { if a in f then f[a] else 0 }

  /** How often an address sends. */
  function Sends(txs: seq<Tx>, a: Addr): nat {
    if txs == [] then 0
    else Sends(txs[..|txs| - 1], a) + if txs[|txs| - 1].sender == a then 1 else 0
  }

  /** The class of a transaction is its sender's shard. */
  function ByOwner(pm: PartitionMap, n: nat): Tx -> nat
    requires n > 0
  {
    (t: Tx) => Owner(pm, n, t.sender)
  }

  // ------------------------------------------------ choosing accounts

  /** More frequent first, then by address. */
  predicate Before(f: Frequency, a: Addr, b: Addr) {
    Freq(f, a) > Freq(f, b) || (Freq(f, a) == Freq(f, b) && a <= b)
  }

  ghost predicate First(f: Frequency, todo: set<Addr>, a: Addr) {
    a in todo && forall b | b in todo :: Before(f, a, b)
  }

  lemma {:induction false} SomeFirst(todo: set<Addr>, f: Frequency)
    requires todo != {}
    ensures exists a :: First(f, todo, a)
    decreases |todo|
  {
    var x :| x in todo;
    if todo == {x} {
      assert First(f, todo, x);
    } else {
      var rest := todo - {x};
      assert rest != {};
      SomeFirst(rest, f);
      var z :| First(f, rest, z);
      if Before(f, z, x) {
        assert First(f, todo, z);
      } else {
        forall b | b in todo ensures Before(f, x, b) { assert b == x || Before(f, z, b); }
        assert First(f, todo, x);
      }
    }
  }

  /** The first accounts in that order: as many as asked for or as there are. */
  ghost predicate Leading(f: Frequency, limit: nat, chosen: set<Addr>) {
    && chosen <= f.Keys && |chosen| == (if |f| > limit then limit else |f|)
    && forall a, b | a in chosen && b in f && b !in chosen :: Before(f, a, b)
  }

  function NextShard(s: ShardId, n: nat): ShardId
    requires n > 0
  {
    (s + 1) % n
  }

  ghost predicate Shifts(pm: PartitionMap, n: nat, chosen: set<Addr>, mapping: PartitionMap)
    requires n > 0
  {
    mapping.Keys == chosen && forall a | a in chosen :: mapping[a] == NextShard(Owner(pm, n, a), n)
  }

  lemma NextShardIs(s: ShardId, n: nat)
    requires n >= 2 && s < n
    ensures NextShard(s, n) == if s == n - 1 then 0 else s + 1
  {
    if s + 1 == n { assert (s + 1) % n == 0; } else { assert (s + 1) % n == s + 1; }
  }

  /** A plan is a valid migration message and moves every account it names. */
  lemma PlanMoves(pm: PartitionMap, n: nat, chosen: set<Addr>, mapping: PartitionMap)
    requires n >= 2 && InRange(pm, n) && Shifts(pm, n, chosen, mapping)
    ensures InRange(mapping, n) && forall a | a in chosen :: Owner(pm + mapping, n, a) != Owner(pm, n, a)
    ensures forall a | a in chosen :: mapping[a] == if Owner(pm, n, a) == n - 1 then 0 else Owner(pm, n, a) + 1
  {
    forall a | a in chosen ensures mapping[a] == if Owner(pm, n, a) == n - 1 then 0 else Owner(pm, n, a) + 1 {
      NextShardIs(Owner(pm, n, a), n);
    }
  }

  /** The sorted accounts, cut off at the limit. */
  method FirstAccounts(f: Frequency, limit: nat) returns (chosen: set<Addr>)
    ensures Leading(f, limit, chosen)
  {
    chosen := {};
    var todo := f.Keys;
    SetSizes(f);
    while todo != {} && |chosen| < limit
      invariant todo <= f.Keys && chosen == f.Keys - todo
      invariant |chosen| + |todo| == |f| && |chosen| <= limit
      invariant forall a, b | a in chosen && b in todo :: Before(f, a, b)
      decreases |todo|
    {
      SomeFirst(todo, f);
      ghost var first :| First(f, todo, first);
      var a :| a in todo && forall b | b in todo :: Before(f, a, b);
      chosen := chosen + {a};
      todo := todo - {a};
    }
  }

  // ------------------------------------------------ the supervisor of the whole system

  /** An acknowledgement under way in the first migration is of epoch 1 and from a
      replica of the deployment: the panic of HandleOtherMessage is unreachable. */
  lemma AcksAreValid(c: Config, run: seq<System>, k: nat, ack: Ack)
    requires Run(c, run) && k < |run| && ack in run[k].sup.acksIn && run[k].sup.completed == 0
    ensures ack.epoch == 1 && ack.shard < c.n && ack.node < c.r
  {
    RunInv(c, run, k);
    assert AckOk(c, run[k], ack.shard, ack.node);
  }

  /** The parts of a fresh batch can be injected one after the other. */
  lemma {:induction false} BatchIsInjected(c: Config, st: System, txs: seq<Tx>, m: nat) returns (states: seq<System>)
    requires c.n > 0 && |st.nodes| == c.n && m <= c.n && st.sup.current.None? && FreshBatch(st.sup.injected, txs)
    ensures |states| == m + 1 && states[0] == st
    ensures var cls := ByOwner(st.sup.placement, c.n);
            && (forall s | 0 <= s < m :: Takes(c, states[s], Inject(s, Part(cls, txs, s)), states[s + 1]))
            && |states[m].nodes| == c.n && states[m].sup == st.sup.(injected := states[m].sup.injected)
            && OnlyParts(st.sup.injected, states[m].sup.injected, cls, txs, m)
  {
    var cls := ByOwner(st.sup.placement, c.n);
    if m == 0 {
      states := [st];
    } else {
      states := BatchIsInjected(c, st, txs, m - 1);
      var last := states[m - 1];
      PartIsFresh(st.sup.injected, last.sup.injected, cls, txs, m - 1);
      var next := DoInject(last, m - 1, Part(cls, txs, m - 1));
      assert Takes(c, last, Inject(m - 1, Part(cls, txs, m - 1)), next);
      states := states + [next];
    }
  }

  /** What has been injected is what was there and the parts for the first m shards. */
  ghost predicate OnlyParts(before: seq<Tx>, now: seq<Tx>, cls: Tx -> nat, txs: seq<Tx>, m: nat) {
    forall t | t in now :: t in before || (t in txs && cls(t) < m)
  }

  lemma {:induction false} PartDistinct(cls: Tx -> nat, txs: seq<Tx>, k: nat)
    requires forall i, j | 0 <= i < j < |txs| :: txs[i].id != txs[j].id
    ensures forall i, j | 0 <= i < j < |Part(cls, txs, k)| :: Part(cls, txs, k)[i].id != Part(cls, txs, k)[j].id
  {
    if txs != [] {
      var rest := Part(cls, txs[1..], k);
      PartDistinct(cls, txs[1..], k);
      assert forall i | 0 <= i < |rest| :: rest[i] in txs[1..] && rest[i].id != txs[0].id;
    }
  }

  lemma PartIsFresh(before: seq<Tx>, now: seq<Tx>, cls: Tx -> nat, txs: seq<Tx>, m: nat)
    requires FreshBatch(before, txs) && OnlyParts(before, now, cls, txs, m)
    ensures FreshBatch(now, Part(cls, txs, m))
  {
    PartDistinct(cls, txs, m);
    forall t, u | t in Part(cls, txs, m) && u in now ensures t.id != u.id {
      if u !in before {
        var i :| 0 <= i < |txs| && txs[i] == t;
        var j :| 0 <= j < |txs| && txs[j] == u;
        assert cls(t) != cls(u);
      }
    }
  }

  datatype Outcome = Done | Panic

  class Committee {
    const n: nat
    const replicas: nat
    var placement: PartitionMap
    var frequency: Frequency
    var acks: set<(nat, nat)>
    var completed: set<nat>

    /** The committee holds what the supervisor of a system state holds. */
    ghost predicate Tracks(c: Config, sup: Supervisor)
      reads this
    {
      n == c.n && replicas == c.r && placement == sup.placement && acks == sup.acks && completed == sup.confirmed
    }

    constructor (n: nat, replicas: nat)
      ensures this.n == n && this.replicas == replicas
      ensures placement == map[] && frequency == map[] && acks == {} && completed == {}
      ensures Tracks(Config(n, replicas), Init(Config(n, replicas)).sup)
    {
      this.n, this.replicas := n, replicas;
      placement, frequency, acks, completed := map[], map[], {}, {};
    }

    /** One batch of the injection loop: every transaction goes to its sender's shard,
        in order, and every sender is counted. */
    method RouteBatch(txs: seq<Tx>) returns (byShard: map<ShardId, seq<Tx>>)
      requires n > 0
      modifies this`frequency
      ensures forall s: ShardId :: (if s in byShard then byShard[s] else []) == Part(ByOwner(placement, n), txs, s)
      ensures forall a: Addr :: Freq(frequency, a) == Freq(old(frequency), a) + Sends(txs, a)
    {
      byShard := map[];
      ghost var cls := ByOwner(placement, n);
      for i := 0 to |txs|
        invariant SplitByOwner(byShard, cls, txs[..i])
        invariant forall a: Addr :: Freq(frequency, a) == Freq(old(frequency), a) + Sends(txs[..i], a)
      {
        var s := Owner(placement, n, txs[i].sender);
        SplitNext(byShard, cls, txs, i, s);
        byShard := byShard[s := (if s in byShard then byShard[s] else []) + [txs[i]]];
        frequency := frequency[txs[i].sender := Freq(frequency, txs[i].sender) + 1];
        assert txs[..i + 1][..i] == txs[..i];
      }
      assert txs[..|txs|] == txs;
    }

    /** migrate up to the sending of the plan; None where the code panics. */
    method ChooseAccounts(limit: nat, ghost c: Config, ghost st: System) returns (plan: Option<PartitionMap>)
      ensures plan.None? <==> n < 2 || |frequency| == 0 || limit == 0
      ensures plan.Some? ==>
                Leading(frequency, limit, plan.value.Keys) && Shifts(placement, n, plan.value.Keys, plan.value)
      ensures plan.Some? && InRange(placement, n) ==> forall a | a in plan.value ::
                plan.value[a] == if Owner(placement, n, a) == n - 1 then 0 else Owner(placement, n, a) + 1
      ensures plan.Some? && Tracks(c, st.sup) && Inv(c, st) && st.sup.current.None?
              ==> Enabled(c, st, StartMigration(plan.value))
    {
      if n < 2 { return None; }
      var chosen := FirstAccounts(frequency, limit);
      if |chosen| == 0 { return None; }
      var mapping := map a | a in chosen :: NextShard(Owner(placement, n, a), n);
      assert mapping.Keys == chosen;
      if InRange(placement, n) { PlanMoves(placement, n, chosen, mapping); }
      plan := Some(mapping);
    }

    /** After all acknowledgements the plan becomes the placement. */
    method Adopt(mapping: PartitionMap, ghost c: Config, ghost st: System) returns (adopted: bool)
      modifies this`placement
      ensures adopted <==> |acks| == n * replicas
      ensures placement == if adopted then old(placement) + mapping else old(placement)
      ensures old(Tracks(c, st.sup)) && Inv(c, st) && st.sup.current == Some(mapping) ==>
                && (adopted <==> Enabled(c, st, FinishMigration))
                && (adopted ==> Tracks(c, Apply(c, st, FinishMigration).sup))
    {
      adopted := |acks| == n * replicas;
      if adopted { placement := LeaderNodes.OverlayMap(placement, mapping); }
    }

    method HandleBlockInfo(inner: seq<Tx>, relay2: seq<Tx>, ghost c: Config, ghost st: System, ghost k: nat)
      modifies this`completed
      ensures completed == old(completed) + set t | t in inner + relay2 :: t.id
      ensures old(Tracks(c, st.sup)) && Inv(c, st) && k < |st.sup.infosIn|
              && (forall t :: t in inner + relay2 <==> t in st.sup.infosIn[k])
              ==> Tracks(c, Apply(c, st, DeliverInfo(k)).sup)
    {
      var final := inner + relay2;
      for i := 0 to |final|
        invariant completed == old(completed) + set t | t in final[..i] :: t.id
      {
        assert final[..i + 1] == final[..i] + [final[i]];
        if final[i].id in completed { continue; }
        completed := completed + {final[i].id};
      }
      assert final[..|final|] == final;
    }

    /** An acknowledgement of another epoch or from outside the deployment panics. */
    method HandleAck(ack: Ack, ghost c: Config, ghost st: System) returns (r: Outcome)
      modifies this`acks
      ensures r.Panic? <==> ack.epoch != 1 || ack.shard >= n || ack.node >= replicas
      ensures acks == if r.Panic? then old(acks) else old(acks) + {(ack.shard, ack.node)}
      ensures old(Tracks(c, st.sup)) && Inv(c, st) && st.sup.completed == 0 && ack in st.sup.acksIn ==>
                r.Done? && Tracks(c, Apply(c, st, DeliverAck(ack)).sup)
    {
      if Inv(c, st) && ack in st.sup.acksIn { assert AckOk(c, st, ack.shard, ack.node); }
      if ack.epoch != 1 || ack.shard >= n || ack.node >= replicas { return Panic; }
      acks := acks + {(ack.shard, ack.node)};
      return Done;
    }
  }

  ghost predicate SplitByOwner(byShard: map<ShardId, seq<Tx>>, cls: Tx -> nat, txs: seq<Tx>) {
    forall s: ShardId :: (if s in byShard then byShard[s] else []) == Part(cls, txs, s)
  }

  lemma SplitNext(byShard: map<ShardId, seq<Tx>>, cls: Tx -> nat, txs: seq<Tx>, i: nat, s: ShardId)
    requires i < |txs| && SplitByOwner(byShard, cls, txs[..i]) && cls(txs[i]) == s
    ensures SplitByOwner(byShard[s := (if s in byShard then byShard[s] else []) + [txs[i]]], cls, txs[..i + 1])
  {
    assert txs[..i + 1] == txs[..i] + [txs[i]];
    forall k: ShardId ensures Part(cls, txs[..i + 1], k) == Part(cls, txs[..i], k) + if k == s then [txs[i]] else [] {
      PartAppend(cls, txs[..i], [txs[i]], k);
      assert [txs[i]][1..] == [];
    }
  }

  lemma SetSizes(f: Frequency)
    ensures |f.Keys| == |f|
  {
  }
}
