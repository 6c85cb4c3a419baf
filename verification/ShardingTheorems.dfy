/** What every run of the sharded system guarantees. */
module ShardingTheorems {
  import opened Collections
  import opened Ledger
  import opened Leaders
  import opened Sharding
  import opened Invariant
  import opened Preservation
  import opened MigrationPreservation
  import opened Conservation

  // ------------------------------------------------ every transaction is in exactly one place

  ghost predicate Accounted(c: Config, st: System, w: Tx -> int) {
    W(w, Outstanding(c, st)) + W(w, st.sup.done) == W(w, st.sup.injected)
  }

  lemma {:induction false} RelayedSplit(w: Tx -> int, cls: Tx -> nat, s: ShardId, txs: seq<Tx>)
    requires FlagBlind(w)
    ensures W(Relayed(w, cls, s), txs) + W(w, Part(cls, txs, s)) == W(w, txs)
    decreases |txs|
  {
    if txs != [] {
      RelayedSplit(w, cls, s, txs[1..]);
      var rest := Part(cls, txs[1..], s);
      if cls(txs[0]) == s { assert ([txs[0]] + rest)[1..] == rest; } else { assert [] + rest == rest; }
      assert w(txs[0]) == w(txs[0].(relayed := true));
    }
  }

  lemma StepAccounted(c: Config, st: System, step: Step, w: Tx -> int)
    requires Inv(c, st) && Enabled(c, st, step) && FlagBlind(w) && Accounted(c, st, w)
    ensures Accounted(c, Apply(c, st, step), w)
  {
    StepWeight(c, st, step, w);
    match step
    case Inject(s, txs) => WAppend(w, st.sup.injected, txs);
    case FinishBlock(s) =>
      var l := st.nodes[s].l;
      RelayedSplit(w, FateClass(l.pm, c.n, l.id), l.id, l.stage.body);
      WAppend(w, st.sup.done, Finals(l, c.n));
    case _ =>
  }

  lemma InitNodeEmpty(c: Config, w: Tx -> int, i: nat)
    requires i < c.n
    ensures NodeW(w, Init(c).nodes[i], c.n) == 0
  {
    var nd := Init(c).nodes[i];
    NoParcels(w, nd.parcelsIn, c.n);
    NoParcels(w, nd.l.parcels, c.n);
    NoRelays(w, nd.relays, c.n);
  }

  lemma {:induction false} ConcatZero(w: Tx -> int, ps: seq<seq<Tx>>, k: nat)
    requires k <= |ps| && forall i | 0 <= i < |ps| :: W(w, ps[i]) == 0
    ensures W(w, Concat(ps, k)) == 0
  {
    if k > 0 {
      ConcatZero(w, ps, k - 1);
      WAppend(w, Concat(ps, k - 1), ps[k - 1]);
    }
  }

  lemma NothingAtStart(c: Config, w: Tx -> int)
    requires c.n > 0
    ensures W(w, Outstanding(c, Init(c))) == 0
  {
    forall i | 0 <= i < c.n ensures W(w, Contents(c, Init(c))[i]) == 0 {
      InitNodeEmpty(c, w, i);
      NodeWeight(w, Init(c).nodes[i], c.n);
    }
    ConcatZero(w, Contents(c, Init(c)), c.n);
  }

  lemma {:induction false} NoRelays(w: Tx -> int, rs: seq<seq<Relay>>, k: nat)
    requires k <= |rs| && forall j | 0 <= j < k :: rs[j] == []
    ensures W(w, FlatRelays(rs, k)) == 0
  {
    if k > 0 {
      NoRelays(w, rs, k - 1);
      assert FlatRelays(rs, k) == FlatRelays(rs, k - 1) + [] == FlatRelays(rs, k - 1);
    }
  }

  lemma RunStep(c: Config, run: seq<System>, k: nat) returns (step: Step)
    requires Run(c, run) && 0 < k < |run|
    ensures Inv(c, run[k - 1]) && Inv(c, run[k])
    ensures Takes(c, run[k - 1], step, run[k]) && (step.PassBarrier? ==> Heard(c, run[k - 1], step.s))
  {
    RunInv(c, run, k - 1);
    RunInv(c, run, k);
    assert NextAt(c, run, k);
    step := NextStep(c, run[k - 1], run[k]);
  }

  lemma NextStep(c: Config, st: System, st': System) returns (step: Step)
    requires c.n > 0 && Next(c, st, st')
    ensures Takes(c, st, step, st') && (step.PassBarrier? ==> Heard(c, st, step.s))
  {
    step :| Takes(c, st, step, st') && (step.PassBarrier? ==> Heard(c, st, step.s));
  }

  /** Whatever a transaction is worth, in whichever way, nothing of it is ever
      lost or duplicated: not by relays, the pool split, shipping or collecting. */
  lemma {:induction false} AlwaysAccounted(c: Config, run: seq<System>, k: nat, w: Tx -> int)
    requires Run(c, run) && k < |run| && FlagBlind(w)
    ensures Accounted(c, run[k], w)
  {
    if k == 0 {
      StartAccounted(c, w);
    } else {
      AlwaysAccounted(c, run, k - 1, w);
      RunInv(c, run, k - 1);
      assert NextAt(c, run, k);
      NextAccounted(c, run[k - 1], run[k], w);
    }
  }

  lemma StartAccounted(c: Config, w: Tx -> int)
    requires c.n > 0
    ensures Accounted(c, Init(c), w)
  {
    NothingAtStart(c, w);
  }

  lemma NextAccounted(c: Config, st: System, st': System, w: Tx -> int)
    requires Inv(c, st) && Next(c, st, st') && FlagBlind(w) && Accounted(c, st, w)
    ensures Accounted(c, st', w)
  {
    var step := NextStep(c, st, st');
    StepAccounted(c, st, step, w);
  }

  ghost predicate InjectedOk(txs: seq<Tx>) {
    && (forall t | t in txs :: !t.relayed)
    && (forall i, j | 0 <= i < j < |txs| :: txs[i].id != txs[j].id)
  }

  lemma {:induction false} AlwaysInjectedOk(c: Config, run: seq<System>, k: nat)
    requires Run(c, run) && k < |run|
    ensures InjectedOk(run[k].sup.injected)
  {
    if k > 0 {
      AlwaysInjectedOk(c, run, k - 1);
      assert NextAt(c, run, k);
      NextInjectedOk(c, run[k - 1], run[k]);
    }
  }

  lemma NextInjectedOk(c: Config, st: System, st': System)
    requires c.n > 0 && Next(c, st, st') && InjectedOk(st.sup.injected)
    ensures InjectedOk(st'.sup.injected)
  {
    var step := NextStep(c, st, st');
    if !step.Inject? { assert st'.sup.injected == st.sup.injected; }
  }

  lemma {:induction false} OneOfEachId(txs: seq<Tx>, id: nat)
    requires forall i, j | 0 <= i < j < |txs| :: txs[i].id != txs[j].id
    ensures W(Count(id), txs) == if exists t :: t in txs && t.id == id then 1 else 0
    decreases |txs|
  {
    if txs != [] {
      OneOfEachId(txs[1..], id);
      if txs[0].id == id {
        assert forall t | t in txs[1..] :: t.id != id;
        assert txs[0] in txs;
      }
    }
  }

  /** Every injected transaction is in exactly one place -- a pool, a block in
      consensus, a relay, an injection, or a parcel on its way or collected --
      or finished exactly once; and nothing else is anywhere. */
  lemma ExactlyOnePlace(c: Config, run: seq<System>, k: nat, id: nat)
    requires Run(c, run) && k < |run|
    ensures W(Count(id), Outstanding(c, run[k])) + W(Count(id), run[k].sup.done)
         == if exists t :: t in run[k].sup.injected && t.id == id then 1 else 0
  {
    AlwaysAccounted(c, run, k, Count(id));
    AlwaysInjectedOk(c, run, k);
    OneOfEachId(run[k].sup.injected, id);
  }

  // ------------------------------------------------ balances

  /** The shard that holds the authoritative copy of an account. */
  function Holder(c: Config, st: System, a: Addr): ShardId
    requires c.n > 0
  {
    var d := Owner(NextMap(st.sup), c.n, a);
    if d < |st.nodes| && HasApplied(st.sup, st.nodes[d]) then d else Owner(st.sup.placement, c.n, a)
  }

  function HeldBalance(c: Config, st: System, a: Addr): nat
    requires c.n > 0
  {
    var h := Holder(c, st, a);
    if h < |st.nodes| then Balance(st.nodes[h].l.trie, a) else 0
  }

  /** Balance held, plus what is still due, is what a full replay gives. */
  ghost predicate BalanceOk(c: Config, st: System, a: Addr)
    requires c.n > 0
  {
    HeldBalance(c, st, a) + W(Effect(a), Outstanding(c, st)) == INIT_BALANCE + W(Effect(a), st.sup.injected)
  }

  /** No sender sends more than the initial balance. */
  ghost predicate Funded(txs: seq<Tx>) {
    forall a: Addr :: W(Debit(a), txs) <= INIT_BALANCE
  }

  lemma {:induction false} DebitBound(a: Addr, txs: seq<Tx>)
    ensures 0 <= W(PendingDebit(a), txs) <= W(Debit(a), txs)
    decreases |txs|
  {
    if txs != [] { DebitBound(a, txs[1..]); }
  }

  lemma {:induction false} ConcatAtLeast(w: Tx -> int, ps: seq<seq<Tx>>, s: nat, k: nat)
    requires s < |ps| && k <= |ps| && forall t: Tx :: w(t) >= 0
    ensures W(w, Concat(ps, k)) >= if s < k then W(w, ps[s]) else 0
  {
    if k > 0 {
      ConcatAtLeast(w, ps, s, k - 1);
      WAppend(w, Concat(ps, k - 1), ps[k - 1]);
      WNonNegative(w, ps[k - 1]);
      WNonNegative(w, Concat(ps, k - 1));
    }
  }

  lemma BodyAtMostOutstanding(c: Config, st: System, s: ShardId, w: Tx -> int)
    requires Inv(c, st) && s < c.n && forall t: Tx :: w(t) >= 0
    ensures W(w, Body(st.nodes[s])) <= W(w, Outstanding(c, st))
  {
    var nd := st.nodes[s];
    ConcatAtLeast(w, Contents(c, st), s, c.n);
    NodeWeight(w, nd, c.n);
    WNonNegative(w, nd.l.pool);
    WNonNegative(w, FlatRelays(nd.relays, |nd.relays|));
    WNonNegative(w, ParcelTxs(nd.parcelsIn, c.n));
    WNonNegative(w, ParcelTxs(nd.l.parcels, c.n));
    WNonNegative(w, FlatQueue(nd.fromSup));
  }

  /** A shard with a block in consensus holds every account its map gives it. */
  lemma WorkingHolds(c: Config, st: System, s: ShardId, a: Addr)
    requires Inv(c, st) && s < c.n && st.nodes[s].l.stage.BlockPending? && Owner(st.nodes[s].l.pm, c.n, a) == s
    ensures Holder(c, st, a) == s
  {
    var d := Owner(NextMap(st.sup), c.n, a);
    assert NodeInv(c, st.sup, st.nodes[s], s);
    assert RoundOk(st.sup, st.nodes[s]);
    if d < c.n && d != s {
      assert PairInv(c, st.sup, st.nodes[d], st.nodes[s], d, s);
      assert BarrierOk(st.sup, st.nodes[d], st.nodes[s], s);
    }
  }

  /** With funded senders no debit is ever skipped. */
  lemma BlockCovered(c: Config, st: System, s: ShardId)
    requires Inv(c, st) && s < c.n && st.nodes[s].l.stage.BlockPending?
    requires Funded(st.sup.injected)
    requires forall a: Addr :: BalanceOk(c, st, a) && Accounted(c, st, Deposit(a))
    ensures Covered(st.nodes[s].l.trie, st.nodes[s].l.pm, c.n, s, st.nodes[s].l.stage.body)
  {
    var l := st.nodes[s].l;
    forall a: Addr | Owner(l.pm, c.n, a) == s ensures Balance(l.trie, a) >= W(PendingDebit(a), l.stage.body) {
      assert BalanceOk(c, st, a) && Accounted(c, st, Deposit(a));
      SenderCovered(c, st, s, a);
    }
  }

  lemma SenderCovered(c: Config, st: System, s: ShardId, a: Addr)
    requires Inv(c, st) && s < c.n && st.nodes[s].l.stage.BlockPending? && Owner(st.nodes[s].l.pm, c.n, a) == s
    requires Funded(st.sup.injected) && BalanceOk(c, st, a) && Accounted(c, st, Deposit(a))
    ensures Balance(st.nodes[s].l.trie, a) >= W(PendingDebit(a), st.nodes[s].l.stage.body)
  {
    HeldHere(c, st, s, a);
    BodyHere(c, st, s, a);
    HeldEnough(c, st, a);
  }

  lemma BodyHere(c: Config, st: System, s: ShardId, a: Addr)
    requires Inv(c, st) && s < c.n && st.nodes[s].l.stage.BlockPending?
    ensures W(PendingDebit(a), st.nodes[s].l.stage.body) <= W(PendingDebit(a), Outstanding(c, st))
  {
    BodyAtMostOutstanding(c, st, s, PendingDebit(a));
  }

  lemma HeldEnough(c: Config, st: System, a: Addr)
    requires c.n > 0 && Funded(st.sup.injected) && BalanceOk(c, st, a) && Accounted(c, st, Deposit(a))
    ensures HeldBalance(c, st, a) >= W(PendingDebit(a), Outstanding(c, st))
  {
    HeldCovers(a, Outstanding(c, st), st.sup.injected, st.sup.done, HeldBalance(c, st, a));
  }

  lemma HeldHere(c: Config, st: System, s: ShardId, a: Addr)
    requires Inv(c, st) && s < c.n && st.nodes[s].l.stage.BlockPending? && Owner(st.nodes[s].l.pm, c.n, a) == s
    ensures HeldBalance(c, st, a) == Balance(st.nodes[s].l.trie, a)
  {
    WorkingHolds(c, st, s, a);
  }

  /** What is held covers every debit still to come. */
  lemma HeldCovers(a: Addr, outstanding: seq<Tx>, injected: seq<Tx>, done: seq<Tx>, held: int)
    requires held + W(Effect(a), outstanding) == INIT_BALANCE + W(Effect(a), injected)
    requires W(Deposit(a), outstanding) + W(Deposit(a), done) == W(Deposit(a), injected)
    requires Funded(injected)
    ensures held >= W(PendingDebit(a), outstanding)
  {
    WDifference(a, outstanding);
    WDifference(a, injected);
    WNonNegative(Deposit(a), done);
    DebitBound(a, injected);
    assert W(Debit(a), injected) <= INIT_BALANCE;
  }

  // What each step does to the balance held, apart from what is outstanding.

  lemma FinishBlockHeld(c: Config, st: System, s: ShardId, a: Addr)
    requires Inv(c, st) && Enabled(c, st, FinishBlock(s))
    requires Covered(st.nodes[s].l.trie, st.nodes[s].l.pm, c.n, s, st.nodes[s].l.stage.body)
    ensures var l := st.nodes[s].l;
            l.id == s
            && HeldBalance(c, Apply(c, st, FinishBlock(s)), a)
               + W(Relayed(Effect(a), FateClass(l.pm, c.n, s), s), l.stage.body)
            == HeldBalance(c, st, a) + W(Effect(a), l.stage.body)
  {
    var st' := Apply(c, st, FinishBlock(s));
    var l := st.nodes[s].l;
    assert NodeInv(c, st.sup, st.nodes[s], s);
    assert Routed(l.pm, c.n, s, l.stage.body) by { assert Body(st.nodes[s]) == l.stage.body; }
    BlockConserves(l.trie, l.pm, c.n, s, l.stage.body, a);
    FinishBlockChange(c, st, s, a);
  }

  /** Committing a block changes what is held of an account by what it changes in the trie. */
  lemma FinishBlockChange(c: Config, st: System, s: ShardId, a: Addr)
    requires Inv(c, st) && Enabled(c, st, FinishBlock(s))
    ensures var l := st.nodes[s].l;
            HeldBalance(c, Apply(c, st, FinishBlock(s)), a) - HeldBalance(c, st, a)
            == Balance(ExecBlock(l.trie, l.pm, c.n, s, l.stage.body), a) - Balance(l.trie, a)
  {
    var l := st.nodes[s].l;
    assert NodeInv(c, st.sup, st.nodes[s], s);
    if Owner(l.pm, c.n, a) == s {
      WorkingHolds(c, st, s, a);
    } else {
      ExecFrame(l.trie, l.pm, c.n, s, l.stage.body, a);
    }
    HeldChange(c, st, s, a);
  }

  lemma HeldChange(c: Config, st: System, s: ShardId, a: Addr)
    requires c.n > 0 && |st.nodes| == c.n && s < c.n && st.nodes[s].l.stage.BlockPending? && st.nodes[s].l.id == s
    requires var l := st.nodes[s].l;
             Holder(c, st, a) == s || Balance(ExecBlock(l.trie, l.pm, c.n, s, l.stage.body), a) == Balance(l.trie, a)
    ensures var l := st.nodes[s].l;
            HeldBalance(c, DoFinishBlock(c, st, s), a) - HeldBalance(c, st, a)
            == Balance(ExecBlock(l.trie, l.pm, c.n, s, l.stage.body), a) - Balance(l.trie, a)
  {
    HolderSame(c, st, DoFinishBlock(c, st, s), a);
    FinishBlockTries(c, st, s, a);
  }

  lemma FinishBlockTries(c: Config, st: System, s: ShardId, a: Addr)
    requires c.n > 0 && |st.nodes| == c.n && s < c.n && st.nodes[s].l.stage.BlockPending? && st.nodes[s].l.id == s
    ensures var l := st.nodes[s].l;
            forall i | 0 <= i < c.n ::
              DoFinishBlock(c, st, s).nodes[i].l.trie
              == if i == s then ExecBlock(l.trie, l.pm, c.n, s, l.stage.body) else st.nodes[i].l.trie
  {}

  lemma HolderSame(c: Config, st: System, st': System, a: Addr)
    requires c.n > 0 && SameView(st.sup, st'.sup) && |st'.nodes| == |st.nodes|
    requires forall i | 0 <= i < |st.nodes| :: st'.nodes[i].l.round == st.nodes[i].l.round
    ensures Holder(c, st', a) == Holder(c, st, a)
  {}

  /** The account states a shard adds are those of the shards they come from. */
  lemma AppliedTrie(c: Config, st: System, s: ShardId, a: Addr)
    requires Inv(c, st) && Enabled(c, st, FinishPartition(s))
    ensures var src, d := Owner(st.sup.placement, c.n, a), Owner(NextMap(st.sup), c.n, a);
            && src < c.n && d < c.n
            && Balance(TransferAccounts(st.nodes[s].l, c.n).trie, a)
               == if d == s then Balance(st.nodes[src].l.trie, a) else Balance(st.nodes[s].l.trie, a)
  {
    var l := st.nodes[s].l;
    assert NodeInv(c, st.sup, st.nodes[s], s);
    assert RoundOk(st.sup, st.nodes[s]) && PendingOk(c, st.sup, st.nodes[s], s);
    var src, d := Owner(st.sup.placement, c.n, a), Owner(NextMap(st.sup), c.n, a);
    assert l.pm + l.stage.modified == NextMap(st.sup);
    if d == s && src != s {
      assert PairInv(c, st.sup, st.nodes[s], st.nodes[src], s, src);
      assert Moves(c, st.sup, a, src, s);
    }
  }

  lemma FinishPartitionHolder(c: Config, st: System, s: ShardId, a: Addr)
    requires Inv(c, st) && Enabled(c, st, FinishPartition(s))
    ensures var d := Owner(NextMap(st.sup), c.n, a);
            var st' := Apply(c, st, FinishPartition(s));
            if d == s then Holder(c, st, a) == Owner(st.sup.placement, c.n, a) && Holder(c, st', a) == s
            else Holder(c, st', a) == Holder(c, st, a)
  {
    assert NodeInv(c, st.sup, st.nodes[s], s);
    assert RoundOk(st.sup, st.nodes[s]) && PendingOk(c, st.sup, st.nodes[s], s);
  }

  lemma FinishPartitionHeld(c: Config, st: System, s: ShardId, a: Addr)
    requires Inv(c, st) && Enabled(c, st, FinishPartition(s))
    ensures HeldBalance(c, Apply(c, st, FinishPartition(s)), a) == HeldBalance(c, st, a)
  {
    AppliedTrie(c, st, s, a);
    FinishPartitionHolder(c, st, s, a);
  }

  ghost predicate SameAccounts(st: System, st': System) {
    && SameView(st.sup, st'.sup) && |st'.nodes| == |st.nodes|
    && forall i | 0 <= i < |st.nodes| ::
         st'.nodes[i].l.round == st.nodes[i].l.round && st'.nodes[i].l.trie == st.nodes[i].l.trie
  }

  lemma LocalStepAccounts(c: Config, st: System, step: Step)
    requires c.n > 0 && |st.nodes| == c.n && Enabled(c, st, step)
    requires step.Inject? || step.DeliverFromSup? || step.StartBlock? || step.DeliverRelay?
    ensures SameAccounts(st, Apply(c, st, step))
  {}

  lemma TransferStepAccounts(c: Config, st: System, step: Step)
    requires c.n > 0 && |st.nodes| == c.n && Enabled(c, st, step)
    requires step.DeliverReady? || step.DeliverParcel? || step.StartPartition? || step.ReplicaApply?
    ensures SameAccounts(st, Apply(c, st, step))
  {
    var st' := Apply(c, st, step);
    var s := step.s;
    assert st'.nodes[s].l.round == st.nodes[s].l.round && st'.nodes[s].l.trie == st.nodes[s].l.trie;
  }

  lemma BroadcastStepAccounts(c: Config, st: System, step: Step)
    requires c.n > 0 && |st.nodes| == c.n && Enabled(c, st, step)
    requires step.EnterBarrier? || step.PassBarrier? || step.DeliverInfo? || step.DeliverAck?
    ensures SameAccounts(st, Apply(c, st, step))
  {}

  /** Steps that touch neither balances nor maps. */
  lemma QuietHeld(c: Config, st: System, st': System, a: Addr)
    requires c.n > 0 && SameAccounts(st, st')
    ensures HeldBalance(c, st', a) == HeldBalance(c, st, a)
  {
    HolderSame(c, st, st', a);
  }

  lemma StartMigrationHeld(c: Config, st: System, m: PartitionMap, a: Addr)
    requires Inv(c, st) && Enabled(c, st, StartMigration(m))
    ensures HeldBalance(c, Apply(c, st, StartMigration(m)), a) == HeldBalance(c, st, a)
  {
    var st' := Apply(c, st, StartMigration(m));
    var d := Owner(NextMap(st'.sup), c.n, a);
    assert d < c.n && NodeInv(c, st.sup, st.nodes[d], d);
    assert RoundOk(st.sup, st.nodes[d]);
    assert Holder(c, st', a) == Holder(c, st, a);
  }

  lemma FinishMigrationHeld(c: Config, st: System, a: Addr)
    requires Inv(c, st) && Enabled(c, st, FinishMigration)
    ensures HeldBalance(c, Apply(c, st, FinishMigration), a) == HeldBalance(c, st, a)
  {
    var d := Owner(NextMap(st.sup), c.n, a);
    assert d < c.n;
    EveryoneApplied(c, st, d);
  }

  lemma StepHeld(c: Config, st: System, step: Step, a: Addr)
    requires Inv(c, st) && Enabled(c, st, step) && !step.FinishBlock?
    ensures HeldBalance(c, Apply(c, st, step), a) == HeldBalance(c, st, a)
  {
    if step.FinishPartition? {
      FinishPartitionHeld(c, st, step.s, a);
    } else if step.StartMigration? {
      StartMigrationHeld(c, st, step.modified, a);
    } else if step.FinishMigration? {
      FinishMigrationHeld(c, st, a);
    } else {
      if step.Inject? || step.DeliverFromSup? || step.StartBlock? || step.DeliverRelay? {
        LocalStepAccounts(c, st, step);
      } else if step.DeliverReady? || step.DeliverParcel? || step.StartPartition? || step.ReplicaApply? {
        TransferStepAccounts(c, st, step);
      } else {
        BroadcastStepAccounts(c, st, step);
      }
      QuietHeld(c, st, Apply(c, st, step), a);
    }
  }

  lemma StepBalance(c: Config, st: System, step: Step, a: Addr)
    requires Inv(c, st) && Enabled(c, st, step) && Funded(st.sup.injected)
    requires forall x: Addr :: BalanceOk(c, st, x) && Accounted(c, st, Deposit(x))
    ensures BalanceOk(c, Apply(c, st, step), a)
  {
    assert BalanceOk(c, st, a);
    StepWeight(c, st, step, Effect(a));
    if step.FinishBlock? {
      BlockCovered(c, st, step.s);
      FinishBlockHeld(c, st, step.s, a);
    } else {
      StepHeld(c, st, step, a);
      if step.Inject? { WAppend(Effect(a), st.sup.injected, step.txs); }
    }
  }

  lemma FundedBefore(c: Config, st: System, step: Step)
    requires c.n > 0 && |st.nodes| == c.n && Enabled(c, st, step) && Funded(Apply(c, st, step).sup.injected)
    ensures Funded(st.sup.injected)
  {
    forall a: Addr ensures W(Debit(a), st.sup.injected) <= INIT_BALANCE {
      assert W(Debit(a), Apply(c, st, step).sup.injected) <= INIT_BALANCE;
      if step.Inject? {
        WAppend(Debit(a), st.sup.injected, step.txs);
        WNonNegative(Debit(a), step.txs);
      }
    }
  }

  lemma InitHeld(c: Config, a: Addr)
    requires c.n > 0
    ensures HeldBalance(c, Init(c), a) == INIT_BALANCE
  {}

  lemma FundedEarlier(c: Config, run: seq<System>, k: nat)
    requires Run(c, run) && 0 < k < |run| && Funded(run[k].sup.injected)
    ensures Funded(run[k - 1].sup.injected)
  {
    var step := RunStep(c, run, k);
    FundedBefore(c, run[k - 1], step);
  }

  lemma DepositsAccounted(c: Config, run: seq<System>, k: nat, st: System)
    requires Run(c, run) && k < |run| && st == run[k]
    ensures forall x: Addr :: Accounted(c, st, Deposit(x))
  {
    forall x: Addr ensures Accounted(c, st, Deposit(x)) { AlwaysAccounted(c, run, k, Deposit(x)); }
  }

  /** In every state of every run with funded senders, for every account. */
  lemma {:induction false} AlwaysBalanced(c: Config, run: seq<System>, k: nat, st: System)
    requires Run(c, run) && k < |run| && st == run[k] && Funded(st.sup.injected)
    ensures forall a: Addr :: BalanceOk(c, st, a)
    decreases k
  {
    if k == 0 {
      forall a: Addr ensures BalanceOk(c, st, a) {
        NothingAtStart(c, Effect(a));
        InitHeld(c, a);
      }
    } else {
      var before := run[k - 1];
      FundedEarlier(c, run, k);
      AlwaysBalanced(c, run, k - 1, before);
      DepositsAccounted(c, run, k - 1, before);
      var step := RunStep(c, run, k);
      forall a: Addr ensures BalanceOk(c, st, a) { StepBalance(c, before, step, a); }
    }
  }

  // ------------------------------------------------ the balance oracle

  /** The independent replay of the input rows (experiments/summarize_overhead.py). */
  function Replay(rows: seq<Tx>): map<Addr, int> {
    if rows == [] then map[]
    else
      var m := Replay(rows[..|rows| - 1]);
      var r := rows[|rows| - 1];
      var m1 := if r.sender in m then m else m[r.sender := INIT_BALANCE];
      var m2 := if r.recipient in m1 then m1 else m1[r.recipient := INIT_BALANCE];
      var m3 := m2[r.sender := m2[r.sender] - r.value];
      m3[r.recipient := m3[r.recipient] + r.value]
  }

  function Replayed(rows: seq<Tx>, a: Addr): int {
    if a in Replay(rows) then Replay(rows)[a] else INIT_BALANCE
  }

  lemma {:induction false} ReplayIsEffect(rows: seq<Tx>, a: Addr)
    requires forall t | t in rows :: !t.relayed
    ensures Replayed(rows, a) == INIT_BALANCE + W(Effect(a), rows)
    decreases |rows|
  {
    if rows != [] {
      var init, r := rows[..|rows| - 1], rows[|rows| - 1];
      ReplayIsEffect(init, a);
      assert rows == init + [r] && r in rows;
      WAppend(Effect(a), init, [r]);
      assert [r][1..] == [];
      assert W(Effect(a), [r]) == Effect(a)(r);
      ReplayOne(rows, a);
    }
  }

  lemma ReplayOne(rows: seq<Tx>, a: Addr)
    requires rows != [] && !rows[|rows| - 1].relayed
    ensures Replayed(rows, a) == Replayed(rows[..|rows| - 1], a) + Effect(a)(rows[|rows| - 1])
  {
  }

  /** Reports to the supervisor name finished transactions only. */
  ghost predicate ReportsOk(sup: Supervisor) {
    && (forall k, t | 0 <= k < |sup.infosIn| && t in sup.infosIn[k] :: t in sup.done)
    && (forall id | id in sup.confirmed :: exists t :: t in sup.done && t.id == id)
  }

  lemma DeliverInfoReports(c: Config, st: System, k: nat)
    requires c.n > 0 && |st.nodes| == c.n && Enabled(c, st, DeliverInfo(k)) && ReportsOk(st.sup)
    ensures ReportsOk(Apply(c, st, DeliverInfo(k)).sup)
  {
    var sup, sup' := st.sup, Apply(c, st, DeliverInfo(k)).sup;
    forall id | id in sup'.confirmed ensures exists t :: t in sup'.done && t.id == id {
      if id !in sup.confirmed {
        var t :| t in sup.infosIn[k] && t.id == id;
        assert t in sup'.done;
      }
    }
  }

  lemma {:induction false} AlwaysReported(c: Config, run: seq<System>, k: nat)
    requires Run(c, run) && k < |run|
    ensures ReportsOk(run[k].sup)
  {
    if k > 0 {
      AlwaysReported(c, run, k - 1);
      var step := RunStep(c, run, k);
      StepReports(c, run[k - 1], step);
    }
  }

  lemma StepReports(c: Config, st: System, step: Step)
    requires c.n > 0 && |st.nodes| == c.n && Enabled(c, st, step) && ReportsOk(st.sup)
    ensures ReportsOk(Apply(c, st, step).sup)
  {
    if step.DeliverInfo? {
      DeliverInfoReports(c, st, step.k);
    }
    if step.FinishBlock? {
      var sup, sup' := st.sup, Apply(c, st, step).sup;
      forall id | id in sup'.confirmed ensures exists t :: t in sup'.done && t.id == id {
        var t :| t in sup.done && t.id == id;
        assert t in sup'.done;
      }
    }
  }

  function Ids(txs: seq<Tx>): (r: set<nat>)
    ensures forall id :: id in r <==> exists t :: t in txs && t.id == id
  {
    set t | t in txs :: t.id
  }

  lemma {:induction false} IdsCount(txs: seq<Tx>)
    requires forall i, j | 0 <= i < j < |txs| :: txs[i].id != txs[j].id
    ensures |Ids(txs)| == |txs|
    decreases |txs|
  {
    if txs != [] {
      IdsCount(txs[1..]);
      assert txs[0].id !in Ids(txs[1..]);
      assert Ids(txs) == Ids(txs[1..]) + {txs[0].id};
    } else {
      assert Ids(txs) == {};
    }
  }

  lemma CountMember(txs: seq<Tx>, t: Tx)
    requires t in txs
    ensures W(Count(t.id), txs) >= 1
  {
    WMember(Count(t.id), txs, t);
  }

  lemma ConfirmedWasInjected(c: Config, run: seq<System>, k: nat, id: nat)
    requires Run(c, run) && k < |run| && id in run[k].sup.confirmed
    ensures id in Ids(run[k].sup.injected) && W(Count(id), Outstanding(c, run[k])) == 0
  {
    AlwaysReported(c, run, k);
    var t :| t in run[k].sup.done && t.id == id;
    CountMember(run[k].sup.done, t);
    ExactlyOnePlace(c, run, k, id);
    WNonNegative(Count(id), Outstanding(c, run[k]));
  }

  lemma OutstandingWasInjected(c: Config, run: seq<System>, k: nat, t: Tx)
    requires Run(c, run) && k < |run| && t in Outstanding(c, run[k])
    ensures t.id in Ids(run[k].sup.injected) && W(Count(t.id), Outstanding(c, run[k])) >= 1
  {
    CountMember(Outstanding(c, run[k]), t);
    ExactlyOnePlace(c, run, k, t.id);
    WNonNegative(Count(t.id), run[k].sup.done);
  }

  /** When the supervisor has counted as many confirmations as it injected
      transactions, nothing is left anywhere. */
  lemma ConfirmedMeansDone(c: Config, run: seq<System>, k: nat)
    requires Run(c, run) && k < |run| && |run[k].sup.confirmed| == |run[k].sup.injected|
    ensures Outstanding(c, run[k]) == []
  {
    var sup := run[k].sup;
    AlwaysInjectedOk(c, run, k);
    IdsCount(sup.injected);
    forall id | id in sup.confirmed ensures id in Ids(sup.injected) { ConfirmedWasInjected(c, run, k, id); }
    SubsetSize(sup.confirmed, Ids(sup.injected));
    var out := Outstanding(c, run[k]);
    if out != [] {
      OutstandingWasInjected(c, run, k, out[0]);
      ConfirmedWasInjected(c, run, k, out[0].id);
    }
  }

  /** The oracle of the experiments: in every run with funded senders, with any
      number of migrations, once every transaction is confirmed each account's
      balance at the shard that holds it is what replaying the input gives; and
      when no migration is under way that shard is its owner on every map. */
  lemma FinalBalancesAreReplayed(c: Config, run: seq<System>, k: nat, a: Addr)
    requires Run(c, run) && k < |run| && Funded(run[k].sup.injected)
    requires |run[k].sup.confirmed| == |run[k].sup.injected|
    ensures HeldBalance(c, run[k], a) == Replayed(run[k].sup.injected, a)
    ensures run[k].sup.current.None? ==>
              var s := Owner(run[k].sup.placement, c.n, a);
              && s < |run[k].nodes|
              && Balance(run[k].nodes[s].l.trie, a) == Replayed(run[k].sup.injected, a)
              && forall i | 0 <= i < |run[k].nodes| :: Owner(run[k].nodes[i].l.pm, c.n, a) == s
  {
    var st := run[k];
    RunInv(c, run, k);
    ConfirmedMeansDone(c, run, k);
    AlwaysBalanced(c, run, k, st);
    assert BalanceOk(c, st, a);
    AlwaysInjectedOk(c, run, k);
    ReplayIsEffect(st.sup.injected, a);
    if st.sup.current.None? {
      forall i | 0 <= i < c.n ensures Owner(st.nodes[i].l.pm, c.n, a) == Owner(st.sup.placement, c.n, a) {
        assert NodeInv(c, st.sup, st.nodes[i], i);
      }
    }
  }

  // ------------------------------------------------ routing, barrier, authority, agreement

  /** The "incorrect tx" branches of HandleinCommit are unreachable, and so is
      the "error tx" panic of proposePartition. */
  lemma NoTransactionIsMisrouted(c: Config, run: seq<System>, k: nat, s: ShardId)
    requires Run(c, run) && k < |run| && s < c.n
    ensures s < |run[k].nodes| && run[k].nodes[s].l.id == s
    ensures run[k].nodes[s].l.stage.BlockPending? ==>
              forall t | t in run[k].nodes[s].l.stage.body ::
                FateOf(run[k].nodes[s].l.pm, c.n, s, t) != Incorrect
    ensures run[k].nodes[s].l.round < |run[k].nodes[s].l.modifiedMap| ==>
              forall t | t in ParcelTxs(run[k].nodes[s].l.parcels, c.n) :: !ErrorTx(run[k].nodes[s].l, t)
  {
    RunInv(c, run, k);
    var st := run[k];
    assert NodeInv(c, st.sup, st.nodes[s], s);
    if st.nodes[s].l.stage.BlockPending? { FateInRange(c, st, s); }
    forall t | t in ParcelTxs(st.nodes[s].l.parcels, c.n)
      ensures st.nodes[s].l.round < |st.nodes[s].l.modifiedMap| ==> !ErrorTx(st.nodes[s].l, t)
    {
      CollectedBelongHere(c, st, s, t);
    }
  }

  /** A shard leaves the barrier only by applying its partition request, and only that
      raises its round. */
  ghost predicate BarrierStep(nd: Node, nd': Node) {
    || (nd'.l.round == nd.l.round && (InBarrier(nd) ==> InBarrier(nd')))
    || nd'.l.round == nd.l.round + 1
  }

  lemma LocalBarrier(c: Config, st: System, step: Step, j: ShardId)
    requires c.n > 0 && |st.nodes| == c.n && Enabled(c, st, step) && j < c.n
    requires step.Inject? || step.DeliverFromSup? || step.DeliverRelay? || step.DeliverReady? || step.DeliverParcel?
             || step.ReplicaApply?
    ensures BarrierStep(st.nodes[j], Apply(c, st, step).nodes[j])
  {
    match step
    case Inject(s, txs) => assert Apply(c, st, step) == DoInject(st, s, txs);
    case DeliverFromSup(s) => assert Apply(c, st, step) == DoDeliverFromSup(st, s);
    case DeliverRelay(s, from) => assert Apply(c, st, step) == DoDeliverRelay(st, s, from);
    case DeliverReady(s, from) => assert Apply(c, st, step) == DoDeliverReady(st, s, from);
    case DeliverParcel(s, from) => assert Apply(c, st, step) == DoDeliverParcel(c, st, s, from);
    case ReplicaApply(s, node) => assert Apply(c, st, step) == DoReplicaApply(st, s, node);
  }

  lemma OtherBarrier(c: Config, st: System, step: Step, j: ShardId)
    requires c.n > 0 && |st.nodes| == c.n && Enabled(c, st, step) && j < c.n
    requires step.StartMigration? || step.EnterBarrier? || step.PassBarrier? || step.DeliverInfo? || step.DeliverAck?
          || step.FinishMigration? || step.StartBlock? || step.FinishBlock? || step.StartPartition?
    ensures BarrierStep(st.nodes[j], Apply(c, st, step).nodes[j])
  {
    match step
    case StartBlock(s, size) =>
    case FinishBlock(s) => assert Apply(c, st, step) == DoFinishBlock(c, st, s);
    case StartPartition(s, received, states) =>
    case StartMigration(m) => assert Apply(c, st, step) == DoStartMigration(c, st, m);
    case EnterBarrier(s) => assert Apply(c, st, step) == DoEnterBarrier(c, st, s);
    case PassBarrier(s) => assert Apply(c, st, step) == DoPassBarrier(c, st, s);
    case DeliverInfo(k) => assert Apply(c, st, step) == DoDeliverInfo(st, k);
    case DeliverAck(ack) =>
    case FinishMigration => assert Apply(c, st, step) == DoFinishMigration(st);
  }

  lemma FinishPartitionBarrier(c: Config, st: System, s: ShardId, j: ShardId)
    requires Inv(c, st) && Enabled(c, st, FinishPartition(s)) && j < c.n
    ensures BarrierStep(st.nodes[j], Apply(c, st, FinishPartition(s)).nodes[j])
  {
    assert NodeInv(c, st.sup, st.nodes[j], j);
    assert RoundOk(st.sup, st.nodes[j]) && PendingOk(c, st.sup, st.nodes[j], j);
  }

  lemma AnyBarrierStep(c: Config, st: System, st': System, j: ShardId)
    requires Inv(c, st) && Next(c, st, st') && j < c.n
    ensures |st'.nodes| == c.n && BarrierStep(st.nodes[j], st'.nodes[j])
  {
    NextKeeps(c, st, st');
    var step := NextStep(c, st, st');
    if step.FinishPartition? {
      FinishPartitionBarrier(c, st, step.s, j);
    } else if step.Inject? || step.DeliverFromSup? || step.DeliverRelay? || step.DeliverReady? || step.DeliverParcel?
        || step.ReplicaApply? {
      LocalBarrier(c, st, step, j);
    } else {
      OtherBarrier(c, st, step, j);
    }
  }

  /** Rounds never fall, and a shard in the barrier stays there for the rest of its round. */
  lemma {:induction false} TrailBarrier(trail: seq<Node>, k: nat, m: nat)
    requires k <= m < |trail| && forall i | 0 < i < |trail| :: BarrierStep(trail[i - 1], trail[i])
    ensures trail[k].l.round <= trail[m].l.round
    ensures InBarrier(trail[k]) && trail[m].l.round == trail[k].l.round ==> InBarrier(trail[m])
    decreases m
  {
    if k < m {
      TrailBarrier(trail, k, m - 1);
      assert BarrierStep(trail[m - 1], trail[m]);
    }
  }

  lemma BarrierLasts(c: Config, run: seq<System>, k: nat, m: nat, j: ShardId)
    requires Run(c, run) && k <= m < |run| && j < c.n
    ensures |run[k].nodes| == |run[m].nodes| == c.n
    ensures InBarrier(run[k].nodes[j]) && run[m].nodes[j].l.round == run[k].nodes[j].l.round
            ==> InBarrier(run[m].nodes[j])
  {
    forall i | 0 <= i < |run| ensures |run[i].nodes| == c.n { RunSize(c, run, i); }
    var trail := seq(|run|, i requires 0 <= i < |run| => run[i].nodes[j]);
    forall i | 0 < i < |trail| ensures BarrierStep(trail[i - 1], trail[i]) { RunBarrierStep(c, run, i, j); }
    TrailBarrier(trail, k, m);
  }

  lemma RunSize(c: Config, run: seq<System>, m: nat)
    requires Run(c, run) && m < |run|
    ensures |run[m].nodes| == c.n
  {
    RunInv(c, run, m);
  }

  lemma RunBarrierStep(c: Config, run: seq<System>, m: nat, j: ShardId)
    requires Run(c, run) && 0 < m < |run| && j < c.n
    ensures |run[m - 1].nodes| == |run[m].nodes| == c.n && BarrierStep(run[m - 1].nodes[j], run[m].nodes[j])
  {
    RunInv(c, run, m - 1);
    assert NextAt(c, run, m);
    AnyBarrierStep(c, run[m - 1], run[m], j);
  }

  /** No block is in consensus at shard j and none can be started or committed. */
  ghost predicate NoBlockAt(c: Config, st: System, j: ShardId)
    requires c.n > 0
  {
    && |st.nodes| == c.n && j < c.n && !st.nodes[j].l.stage.BlockPending?
    && !Enabled(c, st, FinishBlock(j)) && forall size :: !Enabled(c, st, StartBlock(j, size))
  }

  /** Barrier safety: when a leader's getPartitionReady succeeds, every other shard is in
      the barrier too under the old map, and it commits no further block until it has
      applied its partition request: in every later state of the same round no block is
      in consensus there. Nothing it relayed is still on its way here, exactly when the
      leader has heard from it or it has never committed a block. */
  lemma BarrierIsSafe(c: Config, run: seq<System>, k: nat, s: ShardId, j: ShardId)
    requires Run(c, run) && k < |run| && s < c.n && j < c.n && j != s
    requires s < |run[k].nodes| && run[k].nodes[s].l.stage.Waiting? && GetPartitionReady(run[k].nodes[s].l, c.n)
    ensures j < |run[k].nodes| && j < |run[k].nodes[s].relays|
    ensures run[k].nodes[s].relays[j] == [] <==> HeardFrom(run[k].nodes[s], run[k].nodes[j], j)
    ensures InBarrier(run[k].nodes[j]) && run[k].nodes[j].l.pm == run[k].sup.placement
    ensures forall m | k <= m < |run| ::
              j < |run[m].nodes| && (run[m].nodes[j].l.round == run[k].nodes[j].l.round ==> NoBlockAt(c, run[m], j))
  {
    RunInv(c, run, k);
    BarrierReached(c, run[k], s, j);
    assert NodeInv(c, run[k].sup, run[k].nodes[s], s) && NodeInv(c, run[k].sup, run[k].nodes[j], j);
    forall m | k <= m < |run|
      ensures |run[m].nodes| == c.n
           && (run[m].nodes[j].l.round == run[k].nodes[j].l.round ==> InBarrier(run[m].nodes[j]))
    {
      BarrierLasts(c, run, k, m, j);
    }
  }

  /** Copies of account a outside the tries: in a parcel under way or collected, or in
      the partition request being agreed on. */
  ghost predicate InParcel(nd: Node, j: ShardId, a: Addr) {
    (j in nd.parcelsIn && a in nd.parcelsIn[j].states) || (j in nd.l.parcels && a in nd.l.parcels[j].states)
  }

  ghost predicate InRequest(nd: Node, a: Addr) {
    nd.l.stage.PartitionPending? && a in nd.l.stage.states
  }

  lemma NoStrayCopies(c: Config, st: System, a: Addr, src: ShardId, dst: ShardId)
    requires Inv(c, st) && st.sup.current.Some? && Moves(c, st.sup, a, src, dst)
    ensures forall i, j | 0 <= i < c.n && 0 <= j < c.n && i != j && InParcel(st.nodes[i], j, a) :: i == dst && j == src
    ensures forall i | 0 <= i < c.n && InRequest(st.nodes[i], a) :: i == dst
  {
    forall i, j | 0 <= i < c.n && 0 <= j < c.n && i != j && InParcel(st.nodes[i], j, a) ensures i == dst && j == src {
      assert PairInv(c, st.sup, st.nodes[i], st.nodes[j], i, j);
      assert TransferOk(c, st.sup, st.nodes[i], st.nodes[j], i, j);
    }
    forall i | 0 <= i < c.n && InRequest(st.nodes[i], a) ensures i == dst {
      assert NodeInv(c, st.sup, st.nodes[i], i);
      assert PendingOk(c, st.sup, st.nodes[i], i);
    }
  }

  /** The copies there are carry the source's balance. */
  lemma CopiesAreTheSources(c: Config, st: System, a: Addr, src: ShardId, dst: ShardId)
    requires Inv(c, st) && st.sup.current.Some? && Moves(c, st.sup, a, src, dst) && src < c.n && dst < c.n
    ensures var from, to := st.nodes[src], st.nodes[dst];
            && (src in to.parcelsIn ==>
                  a in to.parcelsIn[src].states && to.parcelsIn[src].states[a] == Balance(from.l.trie, a))
            && (src in to.l.parcels ==>
                  a in to.l.parcels[src].states && to.l.parcels[src].states[a] == Balance(from.l.trie, a))
            && (to.l.stage.PartitionPending? ==> InRequest(to, a) && to.l.stage.states[a] == Balance(from.l.trie, a))
  {
    assert PairInv(c, st.sup, st.nodes[dst], st.nodes[src], dst, src);
    assert TransferOk(c, st.sup, st.nodes[dst], st.nodes[src], dst, src);
  }

  /** Only the holder executes transactions on the account: a shard with a block in
      consensus whose map gives it the account is the holder. */
  lemma OnlyHolderExecutes(c: Config, st: System, a: Addr)
    requires Inv(c, st)
    ensures forall i | 0 <= i < c.n && st.nodes[i].l.stage.BlockPending? && Owner(st.nodes[i].l.pm, c.n, a) == i ::
              Holder(c, st, a) == i
  {
    forall i | 0 <= i < c.n && st.nodes[i].l.stage.BlockPending? && Owner(st.nodes[i].l.pm, c.n, a) == i
      ensures Holder(c, st, a) == i
    {
      WorkingHolds(c, st, i, a);
    }
  }

  /** A moving account has one authority at every moment. It is the source's trie until
      the destination applies its partition request and the destination's from then on;
      no other shard can execute a transaction on it. In between its only copies are
      one parcel from the source to the destination, kept until the request, and the
      destination's request; they hold the source's balance. */
  lemma SingleAuthority(c: Config, run: seq<System>, k: nat, a: Addr, src: ShardId, dst: ShardId)
    requires Run(c, run) && k < |run| && run[k].sup.current.Some? && Moves(c, run[k].sup, a, src, dst)
    ensures |run[k].nodes| == c.n && src < c.n && dst < c.n
    ensures Holder(c, run[k], a) == if HasApplied(run[k].sup, run[k].nodes[dst]) then dst else src
    ensures forall i | 0 <= i < c.n && run[k].nodes[i].l.stage.BlockPending?
            && Owner(run[k].nodes[i].l.pm, c.n, a) == i ::
              Holder(c, run[k], a) == i
    ensures forall i, j | 0 <= i < c.n && 0 <= j < c.n && i != j && InParcel(run[k].nodes[i], j, a) ::
            i == dst && j == src
    ensures forall i | 0 <= i < c.n && InRequest(run[k].nodes[i], a) :: i == dst
    ensures var from, to := run[k].nodes[src], run[k].nodes[dst];
            var sent, got := src in to.parcelsIn, src in to.l.parcels;
            && !(sent && got) && (sent || got <==> IsPast(run[k].sup, from) && !HasApplied(run[k].sup, to))
            && (sent ==> a in to.parcelsIn[src].states && to.parcelsIn[src].states[a] == Balance(from.l.trie, a))
            && (got ==> a in to.l.parcels[src].states && to.l.parcels[src].states[a] == Balance(from.l.trie, a))
            && (to.l.stage.PartitionPending? ==> InRequest(to, a) && to.l.stage.states[a] == Balance(from.l.trie, a))
  {
    var st := run[k];
    RunInv(c, run, k);
    var from, to := st.nodes[src], st.nodes[dst];
    assert NodeInv(c, st.sup, to, dst) && NodeInv(c, st.sup, from, src);
    assert PairInv(c, st.sup, to, from, dst, src);
    assert TransferOk(c, st.sup, to, from, dst, src);
    assert Owner(NextMap(st.sup), c.n, a) == dst;
    NoStrayCopies(c, st, a, src, dst);
    CopiesAreTheSources(c, st, a, src, dst);
    OnlyHolderExecutes(c, st, a);
  }

  /** Authority passes with the balance: when the destination applies its request, its
      trie takes the balance the source's trie holds. */
  lemma AuthorityPassesWithBalance(c: Config, run: seq<System>, k: nat, a: Addr, src: ShardId, dst: ShardId)
    requires Run(c, run) && k < |run| && run[k].sup.current.Some? && Moves(c, run[k].sup, a, src, dst)
    requires |run[k].nodes| == c.n && Enabled(c, run[k], FinishPartition(dst))
    ensures var st' := Apply(c, run[k], FinishPartition(dst));
            && src < |st'.nodes| && dst < |st'.nodes| && Holder(c, run[k], a) == src && Holder(c, st', a) == dst
            && Balance(st'.nodes[dst].l.trie, a) == Balance(run[k].nodes[src].l.trie, a)
  {
    RunInv(c, run, k);
    AppliedTrie(c, run[k], dst, a);
    FinishPartitionHolder(c, run[k], dst, a);
  }

  /** When the supervisor has counted an acknowledgement from every replica,
      all of them have applied the migration, every leader uses the map the
      supervisor is about to use, and no late acknowledgement is on its way. */
  lemma AcksMeanAgreement(c: Config, run: seq<System>, k: nat, s: ShardId, node: nat)
    requires Run(c, run) && k < |run| && s < c.n && node < c.r
    requires run[k].sup.current.Some? && |run[k].sup.acks| == c.n * c.r
    ensures s < |run[k].nodes| && |run[k].nodes[s].applied| == c.r
    ensures run[k].nodes[s].applied[node] == run[k].sup.completed + 1
    ensures run[k].nodes[s].l.pm == run[k].sup.placement + run[k].sup.current.value
    ensures run[k].sup.acksIn == {}
  {
    RunInv(c, run, k);
    EveryoneApplied(c, run[k], s);
    AllAcked(c, run[k]);
    assert NodeInv(c, run[k].sup, run[k].nodes[s], s);
  }
}
