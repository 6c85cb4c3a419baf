/** The replicas of every shard. Each shard has a log of the requests its leader has
    proposed; a follower executes the log in order, at its own pace and even ahead of
    the leader, with the same commit handler. A run of the deployment is a run of
    module Sharding with followers executing in between. */
module Replication {
  import opened Ledger
  import opened Leaders
  import opened Sharding
  import opened Invariant
  import opened MigrationPreservation
  import opened Conservation
  import opened ShardingTheorems

  datatype Request = BlockReq(body: seq<Tx>) | PartitionReq(modified: PartitionMap, states: Trie)

  /** What a replica keeps of the accounts. */
  datatype State = State(pm: PartitionMap, trie: Trie)

  /** A follower and how many requests of the log it has executed. */
  datatype Follower = Follower(done: nat, state: State)

  datatype Shard = Shard(log: seq<Request>, followers: seq<Follower>)

  datatype Deployment = Deployment(base: System, shards: seq<Shard>)

  datatype Move = Base(step: Step) | Follow(s: ShardId, node: nat)

  // ------------------------------------------------ executing requests

  /** HandleinCommit on a replica of shard s. */
  function Perform(n: nat, s: ShardId, st: State, r: Request): State
    requires n > 0
  {
    match r
    case BlockReq(body) => st.(trie := ExecBlock(st.trie, st.pm, n, s, body))
    case PartitionReq(m, states) => var pm := st.pm + m; State(pm, AddAccounts(st.trie, pm, n, s, states))
  }

  /** The state after a whole log. */
  function Fold(n: nat, s: ShardId, log: seq<Request>): State
    requires n > 0
  {
    if log == [] then State(map[], map[]) else Perform(n, s, Fold(n, s, log[..|log| - 1]), log[|log| - 1])
  }

  function Partitions(log: seq<Request>): nat {
    if log == [] then 0 else Partitions(log[..|log| - 1]) + if log[|log| - 1].PartitionReq? then 1 else 0
  }

  // ------------------------------------------------ the deployment

  ghost function InitDeployment(c: Config): Deployment
    requires c.r > 0
  {
    Deployment(Init(c), seq(c.n, _ => Shard([], seq(c.r - 1, _ => Follower(0, State(map[], map[]))))))
  }

  function Pending(nd: Node): nat { if nd.l.stage.BlockPending? || nd.l.stage.PartitionPending? then 1 else 0 }

  function PendingRequest(nd: Node): Request
    requires Pending(nd) == 1
  {
    if nd.l.stage.BlockPending? then BlockReq(nd.l.stage.body) else PartitionReq(nd.l.stage.modified, nd.l.stage.states)
  }

  /** A proposal enters the log of its shard. */
  function Logged(st: System, step: Step, shards: seq<Shard>): seq<Shard> {
    if (step.StartBlock? || step.StartPartition?) && step.s < |shards| && step.s < |st.nodes|
        && Pending(st.nodes[step.s]) == 1
    then shards[step.s := shards[step.s].(log := shards[step.s].log + [PendingRequest(st.nodes[step.s])])]
    else shards
  }

  ghost predicate CanMove(c: Config, x: Deployment, mv: Move)
    requires c.n > 0 && |x.base.nodes| == c.n
  {
    match mv
    case Base(step) =>
      Enabled(c, x.base, step) && !step.ReplicaApply? && (step.PassBarrier? ==> Heard(c, x.base, step.s))
    case Follow(s, node) =>
      && s < |x.shards| && s < c.n && 0 < node <= |x.shards[s].followers| && node < |x.base.nodes[s].applied|
      && x.shards[s].followers[node - 1].done < |x.shards[s].log|
  }

  /** The next request of the log at one follower. */
  function Executed(n: nat, s: ShardId, sh: Shard, node: nat): Shard
    requires n > 0 && 0 < node <= |sh.followers| && sh.followers[node - 1].done < |sh.log|
  {
    var f := sh.followers[node - 1];
    sh.(followers := sh.followers[node - 1 := Follower(f.done + 1, Perform(n, s, f.state, sh.log[f.done]))])
  }

  /** A follower that has executed a partition request acknowledges it. */
  function DoMove(c: Config, x: Deployment, mv: Move): Deployment
    requires c.n > 0 && |x.base.nodes| == c.n && CanMove(c, x, mv)
  {
    match mv
    case Base(step) =>
      var st := Apply(c, x.base, step);
      Deployment(st, Logged(st, step, x.shards))
    case Follow(s, node) =>
      var sh := x.shards[s];
      Deployment(if sh.log[sh.followers[node - 1].done].PartitionReq? then DoReplicaApply(x.base, s, node) else x.base,
                 x.shards[s := Executed(c.n, s, sh, node)])
  }

  ghost predicate NextDeployment(c: Config, x: Deployment, x': Deployment)
    requires c.n > 0
  {
    exists mv :: |x.base.nodes| == c.n && CanMove(c, x, mv) && x' == DoMove(c, x, mv)
  }

  ghost predicate NextDeploymentAt(c: Config, run: seq<Deployment>, k: nat)
    requires c.n > 0 && 0 < k < |run|
  {
    NextDeployment(c, run[k - 1], run[k])
  }

  ghost predicate DeploymentRun(c: Config, run: seq<Deployment>) {
    && c.n > 0 && c.r > 0 && run != [] && run[0] == InitDeployment(c)
    && forall k | 0 < k < |run| :: NextDeploymentAt(c, run, k)
  }

  // ------------------------------------------------ the invariant

  ghost predicate FollowerOk(n: nat, applied: seq<nat>, sh: Shard, s: ShardId, k: nat)
    requires n > 0 && k < |sh.followers|
  {
    var f := sh.followers[k];
    && f.done <= |sh.log| && f.state == Fold(n, s, sh.log[..f.done])
    && k + 1 < |applied| && Partitions(sh.log[..f.done]) == applied[k + 1]
  }

  ghost predicate LeaderOk(n: nat, nd: Node, log: seq<Request>, s: ShardId)
    requires n > 0
  {
    && |log| >= Pending(nd) && (Pending(nd) == 1 ==> log[|log| - 1] == PendingRequest(nd))
    && var committed := log[..|log| - Pending(nd)];
       State(nd.l.pm, nd.l.trie) == Fold(n, s, committed) && Partitions(committed) == nd.l.round
  }

  ghost predicate ShardOk(c: Config, nd: Node, sh: Shard, s: ShardId)
    requires c.n > 0
  {
    && LeaderOk(c.n, nd, sh.log, s) && |sh.followers| + 1 == c.r
    && forall k | 0 <= k < |sh.followers| :: FollowerOk(c.n, nd.applied, sh, s, k)
  }

  ghost predicate DeploymentInv(c: Config, x: Deployment) {
    && Inv(c, x.base) && |x.shards| == c.n && c.r > 0
    && forall s | 0 <= s < c.n :: ShardOk(c, x.base.nodes[s], x.shards[s], s)
  }

  // ------------------------------------------------ base steps

  /** Nothing ShardOk reads has changed. */
  ghost predicate SameCore(nd: Node, nd': Node) {
    && nd'.l.pm == nd.l.pm && nd'.l.trie == nd.l.trie && nd'.l.round == nd.l.round && nd'.applied == nd.applied
    && Pending(nd') == Pending(nd) && (Pending(nd) == 1 ==> nd'.l.stage == nd.l.stage)
  }

  lemma CoreFrame(c: Config, nd: Node, nd': Node, sh: Shard, s: ShardId)
    requires c.n > 0 && ShardOk(c, nd, sh, s) && SameCore(nd, nd')
    ensures ShardOk(c, nd', sh, s)
  {}

  lemma LocalCore(c: Config, st: System, step: Step, i: ShardId)
    requires c.n > 0 && |st.nodes| == c.n && Enabled(c, st, step) && i < c.n
    requires step.Inject? || step.DeliverFromSup? || step.DeliverRelay? || step.DeliverReady? || step.DeliverParcel?
    ensures SameCore(st.nodes[i], Apply(c, st, step).nodes[i])
  {
    match step
    case Inject(s, txs) => assert Apply(c, st, step) == DoInject(st, s, txs);
    case DeliverFromSup(s) => DeliverFromSupCore(st, s, i);
    case DeliverRelay(s, from) => assert Apply(c, st, step) == DoDeliverRelay(st, s, from);
    case DeliverReady(s, from) => assert Apply(c, st, step) == DoDeliverReady(st, s, from);
    case DeliverParcel(s, from) => assert Apply(c, st, step) == DoDeliverParcel(c, st, s, from);
  }

  lemma DeliverFromSupCore(st: System, s: ShardId, i: ShardId)
    requires s < |st.nodes| && i < |st.nodes| && st.nodes[s].fromSup != []
    ensures SameCore(st.nodes[i], DoDeliverFromSup(st, s).nodes[i])
  {}

  lemma BroadcastCore(c: Config, st: System, step: Step, i: ShardId)
    requires c.n > 0 && |st.nodes| == c.n && Enabled(c, st, step) && i < c.n
    requires step.StartMigration? || step.EnterBarrier? || step.PassBarrier? || step.DeliverInfo? || step.DeliverAck?
             || step.FinishMigration?
    ensures SameCore(st.nodes[i], Apply(c, st, step).nodes[i])
  {
    match step
    case StartMigration(m) =>
    case EnterBarrier(s) =>
    case PassBarrier(s) =>
    case DeliverInfo(k) =>
    case DeliverAck(ack) =>
    case FinishMigration =>
  }

  /** Proposing: the request becomes the last of the log, and the leader has not executed it. */
  lemma Proposed(c: Config, nd: Node, nd': Node, sh: Shard, s: ShardId)
    requires c.n > 0 && ShardOk(c, nd, sh, s) && Pending(nd) == 0 && Pending(nd') == 1
    requires nd'.l.pm == nd.l.pm && nd'.l.trie == nd.l.trie && nd'.l.round == nd.l.round && nd'.applied == nd.applied
    ensures ShardOk(c, nd', sh.(log := sh.log + [PendingRequest(nd')]), s)
  {
    var log := sh.log + [PendingRequest(nd')];
    assert log[..|log| - 1] == sh.log && sh.log[..|sh.log|] == sh.log;
    forall k | 0 <= k < |sh.followers| ensures FollowerOk(c.n, nd'.applied, sh.(log := log), s, k) {
      assert FollowerOk(c.n, nd.applied, sh, s, k);
      assert log[..sh.followers[k].done] == sh.log[..sh.followers[k].done];
    }
  }

  /** Committing: the leader executes the last request. */
  lemma Committed(c: Config, nd: Node, nd': Node, sh: Shard, s: ShardId)
    requires c.n > 0 && ShardOk(c, nd, sh, s) && Pending(nd) == 1 && Pending(nd') == 0
    requires State(nd'.l.pm, nd'.l.trie) == Perform(c.n, s, State(nd.l.pm, nd.l.trie), PendingRequest(nd))
    requires nd'.l.round == nd.l.round + if nd.l.stage.PartitionPending? then 1 else 0
    requires |nd'.applied| == |nd.applied| && forall k | 0 < k < |nd.applied| :: nd'.applied[k] == nd.applied[k]
    ensures ShardOk(c, nd', sh, s)
  {
    assert sh.log[..|sh.log|] == sh.log;
    forall k | 0 <= k < |sh.followers| ensures FollowerOk(c.n, nd'.applied, sh, s, k) {
      assert FollowerOk(c.n, nd.applied, sh, s, k);
    }
  }

  lemma FinishBlockCore(c: Config, x: Deployment, s: ShardId, i: ShardId)
    requires DeploymentInv(c, x) && Enabled(c, x.base, FinishBlock(s)) && i < c.n
    ensures ShardOk(c, Apply(c, x.base, FinishBlock(s)).nodes[i], x.shards[i], i)
  {
    var nd := x.base.nodes[i];
    assert ShardOk(c, nd, x.shards[i], i) && NodeInv(c, x.base.sup, nd, i);
    if i == s {
      Committed(c, nd, nd.(l := CommitBlock(nd.l, c.n)), x.shards[i], i);
    } else {
      CoreFrame(c, nd, AddRelay(nd, s, RelayFor(x.base.nodes[s].l, c.n, i)), x.shards[i], i);
    }
  }

  lemma FinishPartitionCore(c: Config, x: Deployment, s: ShardId, i: ShardId)
    requires DeploymentInv(c, x) && Enabled(c, x.base, FinishPartition(s)) && i < c.n
    ensures ShardOk(c, Apply(c, x.base, FinishPartition(s)).nodes[i], x.shards[i], i)
  {
    var nd := x.base.nodes[i];
    assert ShardOk(c, nd, x.shards[i], i) && NodeInv(c, x.base.sup, nd, i);
    if i == s {
      assert RoundOk(x.base.sup, nd) && PendingOk(c, x.base.sup, nd, i);
      var l := TransferAccounts(nd.l, c.n);
      Committed(c, nd, nd.(l := l, applied := nd.applied[0 := l.round]), x.shards[i], i);
    }
  }

  lemma StartCore(c: Config, x: Deployment, step: Step, i: ShardId)
    requires DeploymentInv(c, x) && (step.StartBlock? || step.StartPartition?) && Enabled(c, x.base, step) && i < c.n
    ensures var st := Apply(c, x.base, step);
            |Logged(st, step, x.shards)| == c.n && ShardOk(c, st.nodes[i], Logged(st, step, x.shards)[i], i)
  {
    assert ShardOk(c, x.base.nodes[i], x.shards[i], i);
    if i == step.s { StartProposes(c, x.base, step, x.shards[i]); }
  }

  lemma StartProposes(c: Config, st: System, step: Step, sh: Shard)
    requires c.n > 0 && |st.nodes| == c.n && (step.StartBlock? || step.StartPartition?) && Enabled(c, st, step)
    requires ShardOk(c, st.nodes[step.s], sh, step.s)
    ensures var st' := Apply(c, st, step);
            && step.s < |st'.nodes| && Pending(st'.nodes[step.s]) == 1
            && ShardOk(c, st'.nodes[step.s], sh.(log := sh.log + [PendingRequest(st'.nodes[step.s])]), step.s)
  {
    Proposed(c, st.nodes[step.s], Apply(c, st, step).nodes[step.s], sh, step.s);
  }

  lemma BaseKeeps(c: Config, x: Deployment, step: Step)
    requires DeploymentInv(c, x) && CanMove(c, x, Base(step))
    ensures DeploymentInv(c, DoMove(c, x, Base(step)))
  {
    StepKeeps(c, x.base, step);
    var x' := DoMove(c, x, Base(step));
    forall i | 0 <= i < c.n ensures ShardOk(c, x'.base.nodes[i], x'.shards[i], i) {
      BaseShard(c, x, step, i);
    }
  }

  lemma BaseShard(c: Config, x: Deployment, step: Step, i: ShardId)
    requires DeploymentInv(c, x) && CanMove(c, x, Base(step)) && i < c.n
    ensures var st := Apply(c, x.base, step);
            && |Logged(st, step, x.shards)| == c.n == |st.nodes|
            && ShardOk(c, st.nodes[i], Logged(st, step, x.shards)[i], i)
  {
    StepSize(c, x.base, step);
    if step.FinishBlock? {
      FinishBlockCore(c, x, step.s, i);
    } else if step.FinishPartition? {
      FinishPartitionCore(c, x, step.s, i);
    } else if step.StartBlock? || step.StartPartition? {
      StartCore(c, x, step, i);
    } else {
      QuietShard(c, x, step, i);
    }
  }

  lemma StepSize(c: Config, st: System, step: Step)
    requires Inv(c, st) && Enabled(c, st, step) && (step.PassBarrier? ==> Heard(c, st, step.s))
    ensures |Apply(c, st, step).nodes| == c.n
  {
    StepKeeps(c, st, step);
  }

  lemma QuietShard(c: Config, x: Deployment, step: Step, i: ShardId)
    requires DeploymentInv(c, x) && Enabled(c, x.base, step) && i < c.n && |Apply(c, x.base, step).nodes| == c.n
    requires !step.ReplicaApply? && !step.FinishBlock? && !step.FinishPartition? && !step.StartBlock?
             && !step.StartPartition?
    ensures ShardOk(c, Apply(c, x.base, step).nodes[i], x.shards[i], i)
  {
    assert ShardOk(c, x.base.nodes[i], x.shards[i], i);
    if step.Inject? || step.DeliverFromSup? || step.DeliverRelay? || step.DeliverReady? || step.DeliverParcel? {
      LocalCore(c, x.base, step, i);
    } else {
      BroadcastCore(c, x.base, step, i);
    }
    CoreFrame(c, x.base.nodes[i], Apply(c, x.base, step).nodes[i], x.shards[i], i);
  }

  // ------------------------------------------------ followers

  lemma {:induction false} PartitionsGrow(log: seq<Request>, i: nat, j: nat)
    requires i <= j <= |log|
    ensures Partitions(log[..i]) <= Partitions(log[..j])
    decreases j
  {
    if i < j {
      assert log[..j][..j - 1] == log[..j - 1];
      PartitionsGrow(log, i, j - 1);
    }
  }

  /** A follower about to execute a partition request may do so in the base system. */
  lemma FollowEnabled(c: Config, x: Deployment, s: ShardId, node: nat)
    requires DeploymentInv(c, x) && CanMove(c, x, Follow(s, node))
    ensures var sh := x.shards[s];
            sh.log[sh.followers[node - 1].done].PartitionReq? ==> Enabled(c, x.base, ReplicaApply(s, node))
  {
    var sh := x.shards[s];
    assert ShardOk(c, x.base.nodes[s], sh, s);
    if sh.log[sh.followers[node - 1].done].PartitionReq? { FollowBehind(c, x.base.nodes[s], sh, s, node); }
  }

  lemma FollowBehind(c: Config, nd: Node, sh: Shard, s: ShardId, node: nat)
    requires c.n > 0 && ShardOk(c, nd, sh, s) && 0 < node <= |sh.followers| && node < |nd.applied|
    requires sh.followers[node - 1].done < |sh.log| && sh.log[sh.followers[node - 1].done].PartitionReq?
    ensures nd.applied[node] < nd.l.round + if nd.l.stage.PartitionPending? then 1 else 0
  {
    var done, committed := sh.followers[node - 1].done, |sh.log| - Pending(nd);
    assert FollowerOk(c.n, nd.applied, sh, s, node - 1);
    assert sh.log[..done + 1][..done] == sh.log[..done];
    assert Partitions(sh.log[..done + 1]) == nd.applied[node] + 1;
    if done < committed {
      PartitionsGrow(sh.log, done + 1, committed);
    }
  }

  /** What a follower has acknowledged after one more request. */
  function Acknowledged(applied: seq<nat>, node: nat, r: Request): seq<nat>
    requires node < |applied|
  {
    if r.PartitionReq? then applied[node := applied[node] + 1] else applied
  }

  lemma FollowerExecutes(n: nat, applied: seq<nat>, sh: Shard, s: ShardId, node: nat, k: nat)
    requires n > 0 && 0 < node <= |sh.followers| && node < |applied| && sh.followers[node - 1].done < |sh.log|
    requires k < |sh.followers| && FollowerOk(n, applied, sh, s, k)
    ensures FollowerOk(n, Acknowledged(applied, node, sh.log[sh.followers[node - 1].done]),
                       Executed(n, s, sh, node), s, k)
  {
    if k == node - 1 {
      var done := sh.followers[k].done;
      assert sh.log[..done + 1][..done] == sh.log[..done];
    }
  }

  lemma FollowShard(c: Config, nd: Node, sh: Shard, s: ShardId, node: nat)
    requires c.n > 0 && ShardOk(c, nd, sh, s) && 0 < node <= |sh.followers| && node < |nd.applied|
    requires sh.followers[node - 1].done < |sh.log|
    ensures var applied := Acknowledged(nd.applied, node, sh.log[sh.followers[node - 1].done]);
            ShardOk(c, nd.(applied := applied), Executed(c.n, s, sh, node), s)
  {
    var applied, sh' := Acknowledged(nd.applied, node, sh.log[sh.followers[node - 1].done]), Executed(c.n, s, sh, node);
    forall k | 0 <= k < |sh'.followers| ensures FollowerOk(c.n, applied, sh', s, k) {
      assert FollowerOk(c.n, nd.applied, sh, s, k);
      FollowerExecutes(c.n, nd.applied, sh, s, node, k);
    }
  }

  lemma FollowNodes(c: Config, x: Deployment, s: ShardId, node: nat)
    requires c.n > 0 && |x.base.nodes| == c.n && CanMove(c, x, Follow(s, node))
    ensures var st, sh, nd := DoMove(c, x, Follow(s, node)).base, x.shards[s], x.base.nodes[s];
            var entry := sh.log[sh.followers[node - 1].done];
            st.nodes == x.base.nodes[s := nd.(applied := Acknowledged(nd.applied, node, entry))]
  {
    assert x.base.nodes[s := x.base.nodes[s].(applied := x.base.nodes[s].applied)] == x.base.nodes;
  }

  lemma FollowBase(c: Config, x: Deployment, s: ShardId, node: nat)
    requires DeploymentInv(c, x) && CanMove(c, x, Follow(s, node))
    ensures Inv(c, DoMove(c, x, Follow(s, node)).base)
  {
    var sh := x.shards[s];
    FollowEnabled(c, x, s, node);
    if sh.log[sh.followers[node - 1].done].PartitionReq? { StepKeeps(c, x.base, ReplicaApply(s, node)); }
  }

  lemma OneShardChanged(c: Config, x: Deployment, x': Deployment, s: ShardId, nd: Node, sh: Shard)
    requires DeploymentInv(c, x) && Inv(c, x'.base) && s < c.n && ShardOk(c, nd, sh, s)
    requires x'.base.nodes == x.base.nodes[s := nd] && x'.shards == x.shards[s := sh]
    ensures DeploymentInv(c, x')
  {
    forall i | 0 <= i < c.n ensures ShardOk(c, x'.base.nodes[i], x'.shards[i], i) {
      assert ShardOk(c, x.base.nodes[i], x.shards[i], i);
    }
  }

  lemma FollowKeeps(c: Config, x: Deployment, s: ShardId, node: nat)
    requires DeploymentInv(c, x) && CanMove(c, x, Follow(s, node))
    ensures DeploymentInv(c, DoMove(c, x, Follow(s, node)))
  {
    var nd, sh := x.base.nodes[s], x.shards[s];
    FollowBase(c, x, s, node);
    FollowNodes(c, x, s, node);
    assert ShardOk(c, nd, sh, s);
    FollowShard(c, nd, sh, s, node);
    OneShardChanged(c, x, DoMove(c, x, Follow(s, node)), s,
                    nd.(applied := Acknowledged(nd.applied, node, sh.log[sh.followers[node - 1].done])),
                    Executed(c.n, s, sh, node));
  }

  // ------------------------------------------------ runs

  lemma InitDeploymentInv(c: Config)
    requires c.n > 0 && c.r > 0
    ensures DeploymentInv(c, InitDeployment(c))
  {
    InitHolds(c);
    var x := InitDeployment(c);
    forall s | 0 <= s < c.n ensures ShardOk(c, x.base.nodes[s], x.shards[s], s) {
      forall k | 0 <= k < |x.shards[s].followers| ensures FollowerOk(c.n, x.base.nodes[s].applied, x.shards[s], s, k) {}
    }
  }

  /** One move keeps the invariant, and is a step of the base system or leaves it alone. */
  lemma MoveKeeps(c: Config, x: Deployment, x': Deployment)
    requires DeploymentInv(c, x) && NextDeployment(c, x, x')
    ensures DeploymentInv(c, x') && (x'.base == x.base || Next(c, x.base, x'.base))
  {
    var mv :| |x.base.nodes| == c.n && CanMove(c, x, mv) && x' == DoMove(c, x, mv);
    match mv {
      case Base(step) =>
        BaseKeeps(c, x, step);
        assert Takes(c, x.base, step, x'.base);
      case Follow(s, node) =>
        FollowKeeps(c, x, s, node);
        FollowEnabled(c, x, s, node);
        if x'.base != x.base { assert Takes(c, x.base, ReplicaApply(s, node), x'.base); }
    }
  }

  /** The base system of a deployment run is the end of a run of its own, so every
      theorem about such runs holds of it. */
  lemma {:induction false} BaseRun(c: Config, run: seq<Deployment>, k: nat) returns (base: seq<System>)
    requires DeploymentRun(c, run) && k < |run|
    ensures DeploymentInv(c, run[k]) && Run(c, base) && base[|base| - 1] == run[k].base
  {
    if k == 0 {
      base := BaseStart(c);
    } else {
      base := BaseRun(c, run, k - 1);
      assert NextDeploymentAt(c, run, k);
      base := BaseMove(c, run[k - 1], run[k], base);
    }
  }

  lemma BaseStart(c: Config) returns (base: seq<System>)
    requires c.n > 0 && c.r > 0
    ensures DeploymentInv(c, InitDeployment(c)) && Run(c, base) && base[|base| - 1] == InitDeployment(c).base
  {
    InitDeploymentInv(c);
    base := [Init(c)];
  }

  lemma BaseMove(c: Config, x: Deployment, x': Deployment, base: seq<System>) returns (base': seq<System>)
    requires DeploymentInv(c, x) && NextDeployment(c, x, x') && Run(c, base) && base[|base| - 1] == x.base
    ensures DeploymentInv(c, x') && Run(c, base') && base'[|base'| - 1] == x'.base
  {
    MoveKeeps(c, x, x');
    base' := Continued(c, base, x'.base);
  }

  lemma Continued(c: Config, base: seq<System>, st: System) returns (base': seq<System>)
    requires Run(c, base) && (st != base[|base| - 1] ==> Next(c, base[|base| - 1], st))
    ensures Run(c, base') && base'[|base'| - 1] == st
  {
    base' := base;
    if st != base[|base| - 1] { base' := Extended(c, base, st); }
  }

  lemma Extended(c: Config, base: seq<System>, st: System) returns (base': seq<System>)
    requires Run(c, base) && Next(c, base[|base| - 1], st)
    ensures Run(c, base') && base'[|base'| - 1] == st
  {
    base' := base + [st];
    forall k | 0 < k < |base'| ensures NextAt(c, base', k) {
      if k < |base| { assert NextAt(c, base, k); }
    }
  }

  // ------------------------------------------------ the theorems

  /** The account state of a replica, the leader included. */
  function StateOf(x: Deployment, s: ShardId, node: nat): State
    requires s < |x.base.nodes| && s < |x.shards| && node <= |x.shards[s].followers|
  {
    if node == 0 then State(x.base.nodes[s].l.pm, x.base.nodes[s].l.trie) else x.shards[s].followers[node - 1].state
  }

  /** How many requests it has executed. */
  function DoneBy(x: Deployment, s: ShardId, node: nat): int
    requires s < |x.base.nodes| && s < |x.shards| && node <= |x.shards[s].followers|
  {
    if node == 0 then |x.shards[s].log| - Pending(x.base.nodes[s]) else x.shards[s].followers[node - 1].done
  }

  /** Every replica holds the account map and the state that the part of the shard's
      log it has executed gives; so replicas that have executed equally much agree. */
  lemma ReplicasFoldTheLog(c: Config, run: seq<Deployment>, k: nat, s: ShardId, node: nat)
    requires DeploymentRun(c, run) && k < |run| && s < c.n && node < c.r
    ensures |run[k].base.nodes| == |run[k].shards| == c.n && |run[k].shards[s].followers| + 1 == c.r
    ensures var x, log := run[k], run[k].shards[s].log;
            0 <= DoneBy(x, s, node) <= |log| && StateOf(x, s, node) == Fold(c.n, s, log[..DoneBy(x, s, node)])
  {
    var base := BaseRun(c, run, k);
    assert ShardOk(c, run[k].base.nodes[s], run[k].shards[s], s);
    if node > 0 { assert FollowerOk(c.n, run[k].base.nodes[s].applied, run[k].shards[s], s, node - 1); }
  }

  /** The account map depends only on the partition requests executed. */
  lemma {:induction false} MapByPartitions(n: nat, s: ShardId, log: seq<Request>, i: nat, j: nat)
    requires n > 0 && i <= j <= |log| && Partitions(log[..i]) == Partitions(log[..j])
    ensures Fold(n, s, log[..i]).pm == Fold(n, s, log[..j]).pm
    decreases j
  {
    if i < j {
      assert log[..j][..j - 1] == log[..j - 1];
      PartitionsGrow(log, i, j - 1);
      MapByPartitions(n, s, log, i, j - 1);
    }
  }

  lemma FollowerMap(c: Config, x: Deployment, s: ShardId, node: nat)
    requires DeploymentInv(c, x) && s < c.n && node < c.r && x.base.nodes[s].applied[node] == x.base.nodes[s].l.round
    ensures StateOf(x, s, node).pm == x.base.nodes[s].l.pm
  {
    var nd, sh := x.base.nodes[s], x.shards[s];
    assert ShardOk(c, nd, sh, s);
    if node > 0 {
      assert FollowerOk(c.n, nd.applied, sh, s, node - 1);
      var i, j := sh.followers[node - 1].done, |sh.log| - Pending(nd);
      if i <= j { MapByPartitions(c.n, s, sh.log, i, j); } else { MapByPartitions(c.n, s, sh.log, j, i); }
    }
  }

  /** When the supervisor has counted an acknowledgement from every replica, every
      replica of every shard holds the map the supervisor is about to use. */
  lemma AcksMeanEveryReplicaAgrees(c: Config, run: seq<Deployment>, k: nat, s: ShardId, node: nat)
    requires DeploymentRun(c, run) && k < |run| && s < c.n && node < c.r
    requires run[k].base.sup.current.Some? && |run[k].base.sup.acks| == c.n * c.r
    ensures |run[k].base.nodes| == |run[k].shards| == c.n && |run[k].shards[s].followers| + 1 == c.r
    ensures StateOf(run[k], s, node).pm == run[k].base.sup.placement + run[k].base.sup.current.value
    ensures run[k].base.sup.acksIn == {}
  {
    var base := BaseRun(c, run, k);
    AcksMeanAgreement(c, base, |base| - 1, s, node);
    AppliedMap(c, run[k], s, node);
  }

  lemma AppliedMap(c: Config, x: Deployment, s: ShardId, node: nat)
    requires DeploymentInv(c, x) && s < c.n && node < c.r
    requires x.base.sup.current.Some? && |x.base.sup.acks| == c.n * c.r
    requires x.base.nodes[s].applied[node] == x.base.sup.completed + 1
    ensures |x.shards[s].followers| + 1 == c.r && StateOf(x, s, node).pm == x.base.nodes[s].l.pm
  {
    assert ShardOk(c, x.base.nodes[s], x.shards[s], s);
    EveryoneApplied(c, x.base, s);
    FollowerMap(c, x, s, node);
  }

  /** Between migrations every replica of every shard holds the supervisor's map. */
  lemma ReplicasAgreeBetweenMigrations(c: Config, run: seq<Deployment>, k: nat, s: ShardId, node: nat)
    requires DeploymentRun(c, run) && k < |run| && s < c.n && node < c.r && run[k].base.sup.current.None?
    ensures |run[k].base.nodes| == |run[k].shards| == c.n && |run[k].shards[s].followers| + 1 == c.r
    ensures StateOf(run[k], s, node).pm == run[k].base.sup.placement
  {
    var base := BaseRun(c, run, k);
    var x := run[k];
    var nd := x.base.nodes[s];
    assert ShardOk(c, nd, x.shards[s], s) && NodeInv(c, x.base.sup, nd, s);
    assert RoundOk(x.base.sup, nd) && ReplicasOk(c, x.base.sup, nd);
    FollowerMap(c, x, s, node);
  }

  lemma {:induction false} OnesIsLength(txs: seq<Tx>)
    ensures W((t: Tx) => 1, txs) == |txs|
  {
    if txs != [] { OnesIsLength(txs[1..]); }
  }

  /** With nothing outstanding a pending block is empty and executing it changes nothing. */
  lemma NothingPending(c: Config, x: Deployment, s: ShardId)
    requires DeploymentInv(c, x) && s < c.n && Outstanding(c, x.base) == [] && x.base.sup.current.None?
    ensures Pending(x.base.nodes[s]) == 1 ==> PendingRequest(x.base.nodes[s]) == BlockReq([])
  {
    var nd := x.base.nodes[s];
    assert NodeInv(c, x.base.sup, nd, s) && RoundOk(x.base.sup, nd);
    BodyAtMostOutstanding(c, x.base, s, (t: Tx) => 1);
    OnesIsLength(Body(nd));
    OnesIsLength([]);
  }

  lemma CaughtUp(c: Config, x: Deployment, s: ShardId, node: nat)
    requires DeploymentInv(c, x) && s < c.n && node < c.r && DoneBy(x, s, node) >= DoneBy(x, s, 0)
    requires Pending(x.base.nodes[s]) == 1 ==> PendingRequest(x.base.nodes[s]) == BlockReq([])
    ensures StateOf(x, s, node) == StateOf(x, s, 0)
  {
    var nd, sh := x.base.nodes[s], x.shards[s];
    assert ShardOk(c, nd, sh, s);
    if node > 0 {
      assert FollowerOk(c.n, nd.applied, sh, s, node - 1);
      var done := sh.followers[node - 1].done;
      if done > |sh.log| - Pending(nd) {
        assert sh.log[..done] == sh.log;
        assert Perform(c.n, s, StateOf(x, s, 0), BlockReq([])) == StateOf(x, s, 0);
      }
    }
  }

  /** The audit of the experiments, which reads every replica: in every run with funded
      senders, once every transaction is confirmed and no migration is under way, every
      replica of the owning shard that has executed what its leader has holds the
      replayed balance, and every replica of every shard agrees on who the owner is. */
  lemma EveryReplicaHoldsTheReplay(c: Config, run: seq<Deployment>, k: nat, a: Addr, s: ShardId, node: nat)
    requires DeploymentRun(c, run) && k < |run| && Funded(run[k].base.sup.injected)
    requires |run[k].base.sup.confirmed| == |run[k].base.sup.injected| && run[k].base.sup.current.None?
    requires s < c.n && node < c.r
    ensures |run[k].base.nodes| == |run[k].shards| == c.n && |run[k].shards[s].followers| + 1 == c.r
    ensures Owner(StateOf(run[k], s, node).pm, c.n, a) == Owner(run[k].base.sup.placement, c.n, a)
    ensures s == Owner(run[k].base.sup.placement, c.n, a) && DoneBy(run[k], s, node) >= DoneBy(run[k], s, 0) ==>
              Balance(StateOf(run[k], s, node).trie, a) == Replayed(run[k].base.sup.injected, a)
  {
    ReplicasAgreeBetweenMigrations(c, run, k, s, node);
    var base := BaseRun(c, run, k);
    var x := run[k];
    FinalBalancesAreReplayed(c, base, |base| - 1, a);
    ConfirmedMeansDone(c, base, |base| - 1);
    NothingPending(c, x, s);
    if DoneBy(x, s, node) >= DoneBy(x, s, 0) { CaughtUp(c, x, s, node); }
  }

  // ------------------------------------------------ catching up

  lemma ThenFollow(c: Config, run: seq<Deployment>, s: ShardId, node: nat) returns (run': seq<Deployment>)
    requires DeploymentRun(c, run) && |run[|run| - 1].base.nodes| == c.n && CanMove(c, run[|run| - 1], Follow(s, node))
    ensures DeploymentRun(c, run') && run' == run + [DoMove(c, run[|run| - 1], Follow(s, node))]
  {
    var x := run[|run| - 1];
    run' := run + [DoMove(c, x, Follow(s, node))];
    forall k | 0 < k < |run'| ensures NextDeploymentAt(c, run', k) {
      if k < |run| { assert NextDeploymentAt(c, run, k); }
    }
  }

  lemma CanFollow(c: Config, x: Deployment, s: ShardId, node: nat)
    requires DeploymentInv(c, x) && s < c.n && 0 < node < c.r
    ensures node <= |x.shards[s].followers| && x.shards[s].followers[node - 1].done <= |x.shards[s].log|
    ensures x.shards[s].followers[node - 1].done < |x.shards[s].log| ==> CanMove(c, x, Follow(s, node))
  {
    assert ShardOk(c, x.base.nodes[s], x.shards[s], s) && NodeInv(c, x.base.sup, x.base.nodes[s], s);
    assert FollowerOk(c.n, x.base.nodes[s].applied, x.shards[s], s, node - 1);
    assert ReplicasOk(c, x.base.sup, x.base.nodes[s]);
  }

  /** From every state of every run any follower can execute the rest of its log, without a
      step of anybody else. */
  lemma {:induction false} FollowerCatchesUp(c: Config, run: seq<Deployment>, s: ShardId, node: nat)
    returns (run': seq<Deployment>)
    requires DeploymentRun(c, run) && s < c.n && 0 < node < c.r
    requires s < |run[|run| - 1].shards| && node <= |run[|run| - 1].shards[s].followers|
    ensures DeploymentRun(c, run') && |run| <= |run'| && run'[..|run|] == run
    ensures var x, x' := run[|run| - 1], run'[|run'| - 1];
            && s < |x'.shards| && node <= |x'.shards[s].followers| && x'.shards[s].log == x.shards[s].log
            && x'.shards[s].followers[node - 1].done == |x.shards[s].log|
            && x'.shards[s].followers[node - 1].state == Fold(c.n, s, x.shards[s].log)
    decreases |run[|run| - 1].shards[s].log| - run[|run| - 1].shards[s].followers[node - 1].done
  {
    var x := run[|run| - 1];
    var base := BaseRun(c, run, |run| - 1);
    CanFollow(c, x, s, node);
    if x.shards[s].followers[node - 1].done == |x.shards[s].log| {
      run' := run;
      AtTheEnd(c, x, s, node);
    } else {
      var run1 := ThenFollow(c, run, s, node);
      run' := FollowerCatchesUp(c, run1, s, node);
      assert run'[..|run|] == run'[..|run1|][..|run|];
    }
  }

  lemma AtTheEnd(c: Config, x: Deployment, s: ShardId, node: nat)
    requires DeploymentInv(c, x) && s < c.n && 0 < node <= |x.shards[s].followers|
    requires x.shards[s].followers[node - 1].done == |x.shards[s].log|
    ensures x.shards[s].followers[node - 1].state == Fold(c.n, s, x.shards[s].log)
  {
    assert ShardOk(c, x.base.nodes[s], x.shards[s], s);
    assert FollowerOk(c.n, x.base.nodes[s].applied, x.shards[s], s, node - 1);
    assert x.shards[s].log[..|x.shards[s].log|] == x.shards[s].log;
  }
}
