/** Transactions, account ownership and block execution on one shard
    (core/transaction.go, core/account.go, chain/blockchain.go). */
module Ledger {

  /** An address is the number its 40 hexadecimal digits denote. */
  type Addr = nat
  type ShardId = nat

  type PartitionMap = map<Addr, ShardId>

  /** The state trie, read as the balances it stores. */
  type Trie = map<Addr, nat>

  const INIT_BALANCE: nat := 100000000000000000000000000000000000000000000

  datatype Tx = Tx(id: nat, sender: Addr, recipient: Addr, value: nat, relayed: bool)

  /** utils.Addr2Shard: the last eight hexadecimal digits, modulo the number of shards. */
  function HomeShard(a: Addr, n: nat): (s: ShardId)
    requires n > 0
    ensures s < n
  {
    (a % 0x1_0000_0000) % n
  }

  /** Get_PartitionMap */
  function Owner(pm: PartitionMap, n: nat, a: Addr): ShardId
    requires n > 0
  {
    if a in pm then pm[a] else HomeShard(a, n)
  }

  ghost predicate InRange(pm: PartitionMap, n: nat) {
    forall a | a in pm :: pm[a] < n
  }

  /** A missing account holds INIT_BALANCE. */
  function Balance(t: Trie, a: Addr): nat {
    if a in t then t[a] else INIT_BALANCE
  }

  function Credit(t: Trie, pm: PartitionMap, n: nat, s: ShardId, tx: Tx): Trie
    requires n > 0
  {
    if Owner(pm, n, tx.recipient) == s
    then t[tx.recipient := Balance(t, tx.recipient) + tx.value]
    else t
  }

  /** One iteration of GetUpdateStatusTrie: an un-relayed transfer whose sender
      lives here is debited first, and skipped altogether when not covered. */
  function ExecTx(t: Trie, pm: PartitionMap, n: nat, s: ShardId, tx: Tx): Trie
    requires n > 0
  {
    if !tx.relayed && Owner(pm, n, tx.sender) == s then
      if Balance(t, tx.sender) < tx.value then t
      else Credit(t[tx.sender := Balance(t, tx.sender) - tx.value], pm, n, s, tx)
    else Credit(t, pm, n, s, tx)
  }

  function ExecBlock(t: Trie, pm: PartitionMap, n: nat, s: ShardId, body: seq<Tx>): Trie
    requires n > 0
    decreases |body|
  {
    if body == [] then t else ExecBlock(ExecTx(t, pm, n, s, body[0]), pm, n, s, body[1..])
  }

  lemma {:induction false} ExecAppend(t: Trie, pm: PartitionMap, n: nat, s: ShardId, body: seq<Tx>, tx: Tx)
    requires n > 0
    ensures ExecBlock(t, pm, n, s, body + [tx]) == ExecTx(ExecBlock(t, pm, n, s, body), pm, n, s, tx)
    decreases |body|
  {
    if body == [] {
      assert [] + [tx] == [tx];
    } else {
      assert (body + [tx])[1..] == body[1..] + [tx];
      ExecAppend(ExecTx(t, pm, n, s, body[0]), pm, n, s, body[1..], tx);
    }
  }

  /** Execution touches no account that lives elsewhere. */
  lemma {:induction false} ExecFrame(t: Trie, pm: PartitionMap, n: nat, s: ShardId, body: seq<Tx>, a: Addr)
    requires n > 0 && Owner(pm, n, a) != s
    ensures Balance(ExecBlock(t, pm, n, s, body), a) == Balance(t, a)
    decreases |body|
  {
    if body != [] {
      ExecFrame(ExecTx(t, pm, n, s, body[0]), pm, n, s, body[1..], a);
    }
  }

  // ---------------------------------------------------------------- addresses as text

  /** The number that hexadecimal digits denote. */
  function Number(digits: seq<nat>): nat {
    if digits == [] then 0 else 16 * Number(digits[..|digits| - 1]) + digits[|digits| - 1]
  }

  ghost predicate Hex(digits: seq<nat>) { forall i | 0 <= i < |digits| :: digits[i] < 16 }

  function Power16(k: nat): nat { if k == 0 then 1 else 16 * Power16(k - 1) }

  lemma {:induction false} NumberBelow(digits: seq<nat>)
    requires Hex(digits)
    ensures Number(digits) < Power16(|digits|)
  {
    if digits != [] { NumberBelow(digits[..|digits| - 1]); }
  }

  /** The last k digits are the remainder. */
  lemma {:induction false} NumberSplits(digits: seq<nat>, k: nat)
    requires k <= |digits|
    ensures Number(digits) == Number(digits[..|digits| - k]) * Power16(k) + Number(digits[|digits| - k..])
  {
    if k == 0 {
      assert digits[..|digits| - k] == digits && digits[|digits| - k..] == [];
    } else {
      var init, tail := digits[..|digits| - 1], digits[|digits| - k..];
      NumberSplits(init, k - 1);
      TailSplits(digits, k);
      Regroup(Number(digits[..|digits| - k]), Power16(k - 1), Number(tail[..|tail| - 1]), digits[|digits| - 1]);
    }
  }

  lemma TailSplits(digits: seq<nat>, k: nat)
    requires 0 < k <= |digits|
    ensures var init, tail := digits[..|digits| - 1], digits[|digits| - k..];
            && init[..|init| - (k - 1)] == digits[..|digits| - k]
            && init[|init| - (k - 1)..] == tail[..|tail| - 1] && tail[|tail| - 1] == digits[|digits| - 1]
  {
  }

  lemma Regroup(a: nat, p: nat, b: nat, d: nat)
    ensures 16 * (a * p + b) + d == a * (16 * p) + (16 * b + d)
  {
  }

  lemma Power8()
    ensures Power16(8) == 0x1_0000_0000
  {
    assert Power16(4) == 0x1_0000;
  }

  lemma LowPart(a: nat, r: nat)
    requires r < 0x1_0000_0000
    ensures (a * 0x1_0000_0000 + r) % 0x1_0000_0000 == r
  {
  }

  function LastEight(digits: seq<nat>): seq<nat> { if |digits| > 8 then digits[|digits| - 8..] else digits }

  lemma LastEightIs(digits: seq<nat>)
    requires Hex(digits)
    ensures Number(digits) % 0x1_0000_0000 == Number(LastEight(digits))
  {
    var last := LastEight(digits);
    Power8();
    NumberBelow(last);
    PowerGrows(|last|, 8);
    if |digits| > 8 {
      NumberSplits(digits, 8);
      LowPart(Number(digits[..|digits| - 8]), Number(last));
    } else {
      LowPart(0, Number(last));
    }
  }

  /** Addr2Shard as written: of an address of more than eight digits only the last
      eight count, whatever its length. */
  lemma HomeShardOfDigits(digits: seq<nat>, n: nat)
    requires n > 0 && Hex(digits)
    ensures HomeShard(Number(digits), n)
         == Number(if |digits| > 8 then digits[|digits| - 8..] else digits) % n
  {
    LastEightIs(digits);
  }

  lemma {:induction false} PowerGrows(j: nat, k: nat)
    requires j <= k
    ensures Power16(j) <= Power16(k)
  {
    if j < k { PowerGrows(j, k - 1); }
  }

  // ---------------------------------------------------------------- routing

  /** The account that decides where a transaction is to be executed next. */
  function Key(tx: Tx): Addr {
    if tx.relayed then tx.recipient else tx.sender
  }

  ghost predicate Routed(pm: PartitionMap, n: nat, s: ShardId, txs: seq<Tx>)
    requires n > 0
  {
    forall t | t in txs :: Owner(pm, n, Key(t)) == s
  }

  /** What HandleinCommit does with a transaction of the committed block. */
  datatype Fate = Incorrect | Final | RelayTo(dest: ShardId)

  function FateOf(pm: PartitionMap, n: nat, s: ShardId, tx: Tx): Fate
    requires n > 0
  {
    if !tx.relayed && Owner(pm, n, tx.sender) != s then Incorrect
    else if tx.relayed && Owner(pm, n, tx.recipient) != s then Incorrect
    else if Owner(pm, n, tx.recipient) != s then RelayTo(Owner(pm, n, tx.recipient))
    else Final
  }

  /** FateOf as a class number: the destination, s itself when final, n when dropped. */
  function FateClass(pm: PartitionMap, n: nat, s: ShardId): Tx -> nat
    requires n > 0
  {
    (t: Tx) => match FateOf(pm, n, s, t)
               case Incorrect => n
               case Final => s
               case RelayTo(d) => d
  }

  /** Where sendAccounts_and_Txs sends a pooled transaction (s itself: it stays). */
  function MoveClass(m: PartitionMap, pm: PartitionMap, n: nat, s: ShardId): Tx -> nat
    requires n > 0
  {
    (t: Tx) => if Key(t) in m && m[Key(t)] != s && Owner(pm, n, Key(t)) == s then m[Key(t)] else s
  }

  /** The transactions of class k, in order. */
  function Part(cls: Tx -> nat, txs: seq<Tx>, k: nat): (r: seq<Tx>)
    ensures forall t | t in r :: t in txs && cls(t) == k
  {
    if txs == [] then []
    else (if cls(txs[0]) == k then [txs[0]] else []) + Part(cls, txs[1..], k)
  }

  lemma {:induction false} PartAppend(cls: Tx -> nat, xs: seq<Tx>, ys: seq<Tx>, k: nat)
    ensures Part(cls, xs + ys, k) == Part(cls, xs, k) + Part(cls, ys, k)
    decreases |xs|
  {
    if xs == [] {
      assert xs + ys == ys;
    } else {
      assert (xs + ys)[1..] == xs[1..] + ys;
      PartAppend(cls, xs[1..], ys, k);
    }
  }

  function Mark(txs: seq<Tx>): (r: seq<Tx>)
    ensures |r| == |txs|
    ensures forall i | 0 <= i < |txs| :: r[i] == txs[i].(relayed := true)
  {
    seq(|txs|, i requires 0 <= i < |txs| => txs[i].(relayed := true))
  }

  // ---------------------------------------------------------------- weights

  /** Total weight of a list of transactions. */
  function W(w: Tx -> int, txs: seq<Tx>): int {
    if txs == [] then 0 else w(txs[0]) + W(w, txs[1..])
  }

  lemma {:induction false} WAppend(w: Tx -> int, xs: seq<Tx>, ys: seq<Tx>)
    ensures W(w, xs + ys) == W(w, xs) + W(w, ys)
    decreases |xs|
  {
    if xs == [] {
      assert xs + ys == ys;
    } else {
      assert (xs + ys)[1..] == xs[1..] + ys;
      WAppend(w, xs[1..], ys);
    }
  }

  lemma WRemove(w: Tx -> int, txs: seq<Tx>, k: nat)
    requires k < |txs|
    ensures var rest := txs[..k] + txs[k + 1..];
            && W(w, txs) == w(txs[k]) + W(w, rest)
            && multiset(rest) == multiset(txs) - multiset{txs[k]}
  {
    var head, tail := txs[..k], txs[k + 1..];
    WAppend(w, head, tail);
    WAppend(w, head, [txs[k]] + tail);
    assert ([txs[k]] + tail)[1..] == tail;
    assert txs == head + ([txs[k]] + tail);
  }

  /** Weight does not depend on order. */
  lemma {:induction false} WPermute(w: Tx -> int, xs: seq<Tx>, ys: seq<Tx>)
    requires multiset(xs) == multiset(ys)
    ensures W(w, xs) == W(w, ys)
    decreases |xs|
  {
    if xs == [] {
      assert |multiset(ys)| == |ys|;
    } else {
      assert xs[0] in multiset(ys);
      var k :| 0 <= k < |ys| && ys[k] == xs[0];
      WRemove(w, xs, 0);
      WRemove(w, ys, k);
      WPermute(w, xs[..0] + xs[0 + 1..], ys[..k] + ys[k + 1..]);
    }
  }

  lemma {:induction false} WNonNegative(w: Tx -> int, txs: seq<Tx>)
    requires forall t | t in txs :: w(t) >= 0
    ensures W(w, txs) >= 0
    decreases |txs|
  {
    if txs != [] { WNonNegative(w, txs[1..]); }
  }

  lemma {:induction false} WMember(w: Tx -> int, txs: seq<Tx>, t: Tx)
    requires t in txs && forall u | u in txs :: w(u) >= 0
    ensures W(w, txs) >= w(t)
    decreases |txs|
  {
    if t == txs[0] { WNonNegative(w, txs[1..]); } else { WMember(w, txs[1..], t); }
  }

  /** A weight that does not look at the relayed flag. */
  ghost predicate FlagBlind(w: Tx -> int) {
    forall t: Tx :: w(t) == w(t.(relayed := true))
  }

  function SumPart(w: Tx -> int, cls: Tx -> nat, txs: seq<Tx>, k: nat): int {
    if k == 0 then 0 else SumPart(w, cls, txs, k - 1) + W(w, Part(cls, txs, k - 1))
  }

  lemma PartHead(w: Tx -> int, cls: Tx -> nat, txs: seq<Tx>, k: nat)
    requires txs != []
    ensures PartW(w, cls, txs, k) == PartW(w, cls, txs[1..], k) + if cls(txs[0]) == k then w(txs[0]) else 0
  {
    var rest := Part(cls, txs[1..], k);
    if cls(txs[0]) == k {
      WAppend(w, [txs[0]], rest);
      assert [txs[0]][1..] == [];
      assert W(w, [txs[0]]) == w(txs[0]);
    } else {
      assert [] + rest == rest;
    }
  }

  lemma {:induction false} SumPartCons(w: Tx -> int, cls: Tx -> nat, txs: seq<Tx>, k: nat)
    requires txs != []
    ensures SumPart(w, cls, txs, k)
         == SumPart(w, cls, txs[1..], k) + if cls(txs[0]) < k then w(txs[0]) else 0
  {
    if k > 0 {
      SumPartCons(w, cls, txs, k - 1);
      PartHead(w, cls, txs, k - 1);
      SumPartLast(w, cls, txs, k);
      SumPartLast(w, cls, txs[1..], k);
    }
  }

  function PartW(w: Tx -> int, cls: Tx -> nat, txs: seq<Tx>, k: nat): int { W(w, Part(cls, txs, k)) }

  lemma SumPartLast(w: Tx -> int, cls: Tx -> nat, txs: seq<Tx>, k: nat)
    requires k > 0
    ensures SumPart(w, cls, txs, k) == SumPart(w, cls, txs, k - 1) + PartW(w, cls, txs, k - 1)
  {
  }

  /** Splitting a list into classes below n loses nothing and repeats nothing. */
  lemma {:induction false} PartSum(w: Tx -> int, cls: Tx -> nat, txs: seq<Tx>, n: nat)
    requires forall t | t in txs :: cls(t) < n
    ensures SumPart(w, cls, txs, n) == W(w, txs)
    decreases |txs|
  {
    if txs == [] {
      SumPartEmpty(w, cls, n);
    } else {
      SumPartCons(w, cls, txs, n);
      PartSum(w, cls, txs[1..], n);
    }
  }

  lemma {:induction false} SumPartEmpty(w: Tx -> int, cls: Tx -> nat, k: nat)
    ensures SumPart(w, cls, [], k) == 0
  {
    if k > 0 { SumPartEmpty(w, cls, k - 1); }
  }

  // ------------------------------------------------ weights used by the theorems

  function Debit(a: Addr): Tx -> int { (t: Tx) => if t.sender == a then t.value else 0 }
  function Deposit(a: Addr): Tx -> int { (t: Tx) => if t.recipient == a then t.value else 0 }
  function Count(id: nat): Tx -> int { (t: Tx) => if t.id == id then 1 else 0 }

  /** Debits that are still to happen. */
  function PendingDebit(a: Addr): Tx -> int {
    (t: Tx) => if !t.relayed && t.sender == a then t.value else 0
  }

  /** What executing the rest of a transaction will do to account a. */
  function Effect(a: Addr): Tx -> int {
    (t: Tx) => (if t.recipient == a then t.value else 0) - (if !t.relayed && t.sender == a then t.value else 0)
  }

  /** The weight a committed transaction leaves in flight: its relayed copy, if any. */
  function Relayed(w: Tx -> int, cls: Tx -> nat, s: ShardId): Tx -> int {
    (t: Tx) => if cls(t) == s then 0 else w(t.(relayed := true))
  }

  lemma {:induction false} WDifference(a: Addr, txs: seq<Tx>)
    ensures W(Effect(a), txs) == W(Deposit(a), txs) - W(PendingDebit(a), txs)
    decreases |txs|
  {
    if txs != [] { WDifference(a, txs[1..]); }
  }

  lemma {:induction false} WMark(w: Tx -> int, cls: Tx -> nat, s: ShardId, txs: seq<Tx>, k: nat)
    requires k != s
    requires forall t | t in txs :: cls(t) == k
    ensures W(w, Mark(txs)) == W(Relayed(w, cls, s), txs)
    decreases |txs|
  {
    if txs != [] {
      assert Mark(txs)[1..] == Mark(txs[1..]);
      WMark(w, cls, s, txs[1..], k);
    }
  }

  lemma {:induction false} WZero(w: Tx -> int, txs: seq<Tx>)
    requires forall t | t in txs :: w(t) == 0
    ensures W(w, txs) == 0
    decreases |txs|
  {
    if txs != [] { WZero(w, txs[1..]); }
  }

  // ------------------------------------------------ executing a block conserves value

  /** One routed transaction: the change of any balance, plus what its relayed
      copy will still do, is what the transaction was due to do -- exactly when
      its debit was covered (a self-transfer cancels out either way). */
  lemma TxConservesIff(t: Trie, pm: PartitionMap, n: nat, s: ShardId, tx: Tx)
    requires n > 0 && Owner(pm, n, Key(tx)) == s
    ensures (forall a: Addr :: TxConserves(t, pm, n, s, tx, a))
       <==> (tx.relayed || Balance(t, tx.sender) >= tx.value || tx.sender == tx.recipient)
  {
    var uncovered := !tx.relayed && Balance(t, tx.sender) < tx.value;
    if uncovered && tx.sender != tx.recipient {
      var a := tx.sender;
      assert Effect(a)(tx) + tx.value == 0 && Effect(a)(tx.(relayed := true)) == 0;
      assert ExecTx(t, pm, n, s, tx) == t;
      assert !TxConserves(t, pm, n, s, tx, a);
    } else {
      forall a: Addr ensures TxConserves(t, pm, n, s, tx, a) {
        assert Effect(a)(tx.(relayed := true)) == Deposit(a)(tx);
      }
    }
  }

  ghost predicate TxConserves(t: Trie, pm: PartitionMap, n: nat, s: ShardId, tx: Tx, a: Addr)
    requires n > 0
  {
    Balance(ExecTx(t, pm, n, s, tx), a) + Relayed(Effect(a), FateClass(pm, n, s), s)(tx)
    == Balance(t, a) + Effect(a)(tx)
  }

  /** Every sender living here covers all the debits still to come in this block. */
  ghost predicate Covered(t: Trie, pm: PartitionMap, n: nat, s: ShardId, body: seq<Tx>)
    requires n > 0
  {
    forall a: Addr | Owner(pm, n, a) == s :: Balance(t, a) >= W(PendingDebit(a), body)
  }

  lemma CoveredStep(t: Trie, pm: PartitionMap, n: nat, s: ShardId, body: seq<Tx>)
    requires n > 0 && body != [] && Routed(pm, n, s, body) && Covered(t, pm, n, s, body)
    ensures body[0].relayed || Balance(t, body[0].sender) >= body[0].value
    ensures Covered(ExecTx(t, pm, n, s, body[0]), pm, n, s, body[1..])
  {
    var tx := body[0];
    assert Owner(pm, n, Key(tx)) == s;
    if !tx.relayed {
      assert Balance(t, tx.sender) >= W(PendingDebit(tx.sender), body);
      WNonNegative(PendingDebit(tx.sender), body[1..]);
    }
    forall a: Addr | Owner(pm, n, a) == s
      ensures Balance(ExecTx(t, pm, n, s, tx), a) >= W(PendingDebit(a), body[1..])
    {
      assert Balance(t, a) >= W(PendingDebit(a), body);
    }
  }

  /** A whole block, for any account. */
  lemma {:induction false} BlockConserves(t: Trie, pm: PartitionMap, n: nat, s: ShardId, body: seq<Tx>, a: Addr)
    requires n > 0 && Routed(pm, n, s, body) && Covered(t, pm, n, s, body)
    ensures Balance(ExecBlock(t, pm, n, s, body), a) + W(Relayed(Effect(a), FateClass(pm, n, s), s), body)
         == Balance(t, a) + W(Effect(a), body)
    decreases |body|
  {
    if body != [] {
      CoveredStep(t, pm, n, s, body);
      assert Owner(pm, n, Key(body[0])) == s;
      TxConservesIff(t, pm, n, s, body[0]);
      assert TxConserves(t, pm, n, s, body[0], a);
      BlockConserves(ExecTx(t, pm, n, s, body[0]), pm, n, s, body[1..], a);
    }
  }

  // ------------------------------------------------ executing any block

  /** What a transaction does at shard s to account a when it goes through. */
  function LocalEffect(pm: PartitionMap, n: nat, s: ShardId, a: Addr): Tx -> int
    requires n > 0
  {
    (t: Tx) => (if t.recipient == a && Owner(pm, n, a) == s then t.value else 0)
             - (if t.sender == a && Owner(pm, n, a) == s && !t.relayed then t.value else 0)
  }

  /** The transactions of a body that go through: those with no debit here, and those
      whose sender's balance, as changed by the ones before that went through, covers it. */
  function GoThrough(t: Trie, pm: PartitionMap, n: nat, s: ShardId, body: seq<Tx>): seq<Tx>
    requires n > 0
  {
    if body == [] then []
    else
      var before, tx := GoThrough(t, pm, n, s, body[..|body| - 1]), body[|body| - 1];
      var balance := Balance(t, tx.sender) + W(LocalEffect(pm, n, s, tx.sender), before);
      if tx.relayed || Owner(pm, n, tx.sender) != s || balance >= tx.value then before + [tx] else before
  }

  /** One transaction: every balance changes by its effect here, or, when its debit is not
      covered, no balance changes at all. */
  lemma TxBalance(t: Trie, pm: PartitionMap, n: nat, s: ShardId, tx: Tx, a: Addr)
    requires n > 0
    ensures var through := tx.relayed || Owner(pm, n, tx.sender) != s || Balance(t, tx.sender) >= tx.value;
            Balance(ExecTx(t, pm, n, s, tx), a)
            == Balance(t, a) + if through then LocalEffect(pm, n, s, a)(tx) else 0
  {
  }

  /** Any block on any state: every balance changes by the effects of the transactions
      that go through, and the others change nothing. */
  lemma {:induction false} BlockBalances(t: Trie, pm: PartitionMap, n: nat, s: ShardId, body: seq<Tx>, a: Addr)
    requires n > 0
    ensures Balance(ExecBlock(t, pm, n, s, body), a)
         == Balance(t, a) + W(LocalEffect(pm, n, s, a), GoThrough(t, pm, n, s, body))
    decreases |body|
  {
    if body != [] {
      var init, tx := body[..|body| - 1], body[|body| - 1];
      BlockBalances(t, pm, n, s, init, a);
      BlockBalances(t, pm, n, s, init, tx.sender);
      assert body == init + [tx];
      ExecAppend(t, pm, n, s, init, tx);
      TxBalance(ExecBlock(t, pm, n, s, init), pm, n, s, tx, a);
      WLast(LocalEffect(pm, n, s, a), GoThrough(t, pm, n, s, init), tx);
    }
  }

  lemma WLast(w: Tx -> int, txs: seq<Tx>, tx: Tx)
    ensures W(w, txs + [tx]) == W(w, txs) + w(tx)
  {
    WAppend(w, txs, [tx]);
    assert [tx][1..] == [];
    assert W(w, [tx]) == w(tx) + W(w, []);
  }

  /** Balances of a list of accounts. */
  function Total(t: Trie, accounts: seq<Addr>): int {
    if accounts == [] then 0 else Total(t, accounts[..|accounts| - 1]) + Balance(t, accounts[|accounts| - 1])
  }

  /** An un-relayed transfer between two accounts of this shard keeps their sum, covered
      or not. */
  lemma {:induction false} LocalTransferKeepsTotal(t: Trie, pm: PartitionMap, n: nat, s: ShardId, tx: Tx,
                                                   accounts: seq<Addr>)
    requires n > 0 && !tx.relayed && Owner(pm, n, tx.sender) == s == Owner(pm, n, tx.recipient)
    requires forall i, j | 0 <= i < j < |accounts| :: accounts[i] != accounts[j]
    ensures Total(ExecTx(t, pm, n, s, tx), accounts) - Total(t, accounts)
         == if Balance(t, tx.sender) < tx.value then 0
            else (if tx.recipient in accounts then tx.value else 0) - (if tx.sender in accounts then tx.value else 0)
  {
    if accounts != [] {
      var init, a := accounts[..|accounts| - 1], accounts[|accounts| - 1];
      LocalTransferKeepsTotal(t, pm, n, s, tx, init);
      TxBalance(t, pm, n, s, tx, a);
      assert forall x: Addr :: x in accounts <==> x in init || x == a;
      assert a !in init;
    }
  }

  /** A block of such transfers keeps the total of any accounts that include all of its
      ends, covered or not: nothing is minted inside a shard. */
  lemma {:induction false} LocalBlockKeepsTotal(t: Trie, pm: PartitionMap, n: nat, s: ShardId, body: seq<Tx>,
                                                accounts: seq<Addr>)
    requires n > 0 && forall i, j | 0 <= i < j < |accounts| :: accounts[i] != accounts[j]
    requires forall tx | tx in body :: !tx.relayed && Owner(pm, n, tx.sender) == s == Owner(pm, n, tx.recipient)
    requires forall tx | tx in body :: tx.sender in accounts && tx.recipient in accounts
    ensures Total(ExecBlock(t, pm, n, s, body), accounts) == Total(t, accounts)
    decreases |body|
  {
    if body != [] {
      assert body[0] in body;
      LocalTransferKeepsTotal(t, pm, n, s, body[0], accounts);
      LocalBlockKeepsTotal(ExecTx(t, pm, n, s, body[0]), pm, n, s, body[1..], accounts);
    }
  }

  /** A cross-shard transfer that is not covered is relayed all the same: its
      value is credited elsewhere and debited nowhere. */
  lemma UncoveredTransferMintsMoney()
    ensures var tx := Tx(0, 0, 1, INIT_BALANCE + 1, false);
            && FateOf(map[], 2, 0, tx) == RelayTo(1)
            && ExecBlock(map[], map[], 2, 0, [tx]) == map[]
            && Balance(ExecBlock(map[], map[], 2, 1, Mark([tx])), 1) == 2 * INIT_BALANCE + 1
  {
    var tx := Tx(0, 0, 1, INIT_BALANCE + 1, false);
    assert HomeShard(0, 2) == 0 && HomeShard(1, 2) == 1;
    assert ExecBlock(map[], map[], 2, 0, [tx]) == ExecBlock(ExecTx(map[], map[], 2, 0, tx), map[], 2, 0, []);
    var tx1 := tx.(relayed := true);
    assert Mark([tx]) == [tx1];
    var t1 := ExecTx(map[], map[], 2, 1, tx1);
    assert t1 == map[1 := 2 * INIT_BALANCE + 1];
    assert ExecBlock(map[], map[], 2, 1, [tx1]) == ExecBlock(t1, map[], 2, 1, []);
  }
}
