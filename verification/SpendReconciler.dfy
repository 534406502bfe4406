/**
 Global spend reconciliation: a mutex-guarded queue of transactions, the items and deltas of a
 batch, and the concurrent, clipped debits of campaign budgets in Redis.
 */
module SpendReconciler {
  import opened Common

  type CampaignId = nat
  datatype Txn = Txn(campaign: CampaignId, amount: int, id: string)
  datatype Item = Item(campaign: CampaignId, amount: int, id: string)
  datatype Debit = Debit(campaign: CampaignId, amount: int)

  const PREFIX := "global_spend:"

  // ---------------------------------------------------------------- the Redis script

  type Budgets = map<CampaignId, int> // a missing key counts as 0

  function Budget(m: Budgets, c: CampaignId): int { if c in m then m[c] else 0 }

  // INCRBY by the negated amount; the key is deleted when nothing remains.
  function CommitScript(m: Budgets, d: Debit): Budgets {
    var remaining := Budget(m, d.campaign) - d.amount;
    if remaining <= 0 then m - {d.campaign} else m[d.campaign := remaining]
  }

  function CommitAll(m: Budgets, ds: seq<Debit>): Budgets
    decreases |ds|
  {
    if ds == [] then m else CommitAll(CommitScript(m, ds[0]), ds[1..])
  }

  function Debited(ds: seq<Debit>, c: CampaignId): int {
    if ds == [] then 0 else (if ds[0].campaign == c then ds[0].amount else 0) + Debited(ds[1..], c)
  }

  lemma {:induction false} CommitAllClips(m: Budgets, ds: seq<Debit>, c: CampaignId)
    requires Budget(m, c) >= 0 && forall d :: d in ds ==> d.amount > 0
    ensures Budget(CommitAll(m, ds), c) == Max0(Budget(m, c) - Debited(ds, c)) && Debited(ds, c) >= 0
    decreases |ds|
  {
    if ds != [] {
      CommitAllClips(CommitScript(m, ds[0]), ds[1..], c);
    }
  }

  // A budget key exists only while something is left: the script deletes it at zero or below.
  lemma {:induction false} CommitAllKeepsPositive(m: Budgets, ds: seq<Debit>)
    requires forall c :: c in m ==> m[c] > 0
    ensures forall c :: c in CommitAll(m, ds) ==> CommitAll(m, ds)[c] > 0
    decreases |ds|
  {
    if ds != [] { CommitAllKeepsPositive(CommitScript(m, ds[0]), ds[1..]); }
  }

  // ---------------------------------------------------------------- order does not matter

  lemma {:induction false} DebitedAdds(a: seq<Debit>, b: seq<Debit>, c: CampaignId)
    ensures Debited(a + b, c) == Debited(a, c) + Debited(b, c)
  {
    if a == [] {
      assert a + b == b;
    } else {
      DebitedAdds(a[1..], b, c);
      assert (a + b)[1..] == a[1..] + b;
    }
  }

  lemma {:induction false} DebitedPermutes(a: seq<Debit>, b: seq<Debit>, c: CampaignId)
    requires multiset(a) == multiset(b)
    ensures Debited(a, c) == Debited(b, c)
    decreases |a|
  {
    if a == [] {
      assert |multiset(b)| == 0;
      assert b == [];
    } else {
      assert a[0] in multiset(b);
      var k :| 0 <= k < |b| && b[k] == a[0];
      var rest := b[..k] + b[k + 1..];
      assert a == [a[0]] + a[1..];
      assert b == b[..k] + ([b[k]] + b[k + 1..]);
      assert multiset(a) == multiset{a[0]} + multiset(a[1..]);
      assert multiset(b) == multiset{a[0]} + multiset(rest);
      assert multiset(a[1..]) == multiset(a) - multiset{a[0]} == multiset(b) - multiset{a[0]} == multiset(rest);
      DebitedPermutes(a[1..], rest, c);
      DebitedAdds(b[..k], [b[k]] + b[k + 1..], c);
      DebitedAdds(b[..k], b[k + 1..], c);
      DebitedAdds([b[k]], b[k + 1..], c);
      DebitedAdds([a[0]], a[1..], c);
    }
  }

  // ---------------------------------------------------------------- batches

  function Total(txns: seq<Txn>, c: CampaignId): int {
    if txns == [] then 0 else Total(txns[..|txns| - 1], c) + (if txns[|txns| - 1].campaign == c then txns[|txns| - 1].amount else 0)
  }

  lemma {:induction false} TotalAdds(a: seq<Txn>, b: seq<Txn>, c: CampaignId)
    ensures Total(a + b, c) == Total(a, c) + Total(b, c)
  {
    if b == [] {
      assert a + b == a;
    } else {
      TotalAdds(a, b[..|b| - 1], c);
      assert (a + b)[..|a + b| - 1] == a + b[..|b| - 1];
    }
  }

  function Flatten<T>(xss: seq<seq<T>>): seq<T> {
    if xss == [] then [] else xss[0] + Flatten(xss[1..])
  }

  lemma {:induction false} NonNegativeTotal(txns: seq<Txn>, c: CampaignId)
    requires forall t :: t in txns ==> t.amount >= 0
    ensures Total(txns, c) >= 0
  {
    if txns != [] { NonNegativeTotal(txns[..|txns| - 1], c); }
  }

  // The debits the goroutines of one batch run, in whatever order the map iteration and the
  // scheduler give: one per campaign that is routed to a shard and has a positive total.
  ghost predicate DebitsOf(ds: seq<Debit>, txns: seq<Txn>, routed: iset<CampaignId>) {
    && (forall i, j :: 0 <= i < j < |ds| ==> ds[i].campaign != ds[j].campaign)
    && (forall i :: 0 <= i < |ds| ==> ds[i].campaign in routed && ds[i].amount == Total(txns, ds[i].campaign) > 0)
    && (forall c :: c in routed && Total(txns, c) > 0 ==> exists i :: 0 <= i < |ds| && ds[i].campaign == c)
  }

  lemma {:induction false} DebitedOfUnique(ds: seq<Debit>, c: CampaignId)
    requires forall i, j :: 0 <= i < j < |ds| ==> ds[i].campaign != ds[j].campaign
    ensures (forall i :: 0 <= i < |ds| ==> ds[i].campaign != c) ==> Debited(ds, c) == 0
    ensures forall i :: 0 <= i < |ds| && ds[i].campaign == c ==> Debited(ds, c) == ds[i].amount
  {
    if ds != [] {
      DebitedOfUnique(ds[1..], c);
      assert forall i :: 0 <= i < |ds[1..]| ==> ds[1..][i] == ds[i + 1];
    }
  }

  lemma {:induction false} BatchDebits(ds: seq<Debit>, txns: seq<Txn>, routed: iset<CampaignId>, c: CampaignId)
    requires DebitsOf(ds, txns, routed)
    ensures Debited(ds, c) == if c in routed then Max0(Total(txns, c)) else 0
  {
    DebitedOfUnique(ds, c);
  }

  // What the batches charge a campaign: each its total, unless that is not positive.
  function Charged(batches: seq<seq<Txn>>, c: CampaignId): nat {
    if batches == [] then 0 else Max0(Total(batches[0], c)) + Charged(batches[1..], c)
  }

  lemma {:induction false} AllBatches(parts: seq<seq<Debit>>, batches: seq<seq<Txn>>, routed: iset<CampaignId>, c: CampaignId)
    requires |parts| == |batches|
    requires forall i :: 0 <= i < |parts| ==> DebitsOf(parts[i], batches[i], routed)
    ensures Debited(Flatten(parts), c) == if c in routed then Charged(batches, c) else 0
    ensures forall d :: d in Flatten(parts) ==> d.amount > 0
    decreases |parts|
  {
    if parts != [] {
      AllBatches(parts[1..], batches[1..], routed, c);
      BatchDebits(parts[0], batches[0], routed, c);
      DebitedAdds(parts[0], Flatten(parts[1..]), c);
    }
  }

  ghost predicate NonNegative(batches: seq<seq<Txn>>) {
    forall i :: 0 <= i < |batches| ==> forall t :: t in batches[i] ==> t.amount >= 0
  }

  lemma {:induction false} NonNegativeCharged(batches: seq<seq<Txn>>, c: CampaignId)
    requires NonNegative(batches)
    ensures Charged(batches, c) == Total(Flatten(batches), c)
  {
    if batches != [] {
      NonNegativeTotal(batches[0], c);
      NonNegativeCharged(batches[1..], c);
      TotalAdds(batches[0], Flatten(batches[1..]), c);
    }
  }

  // Committing a reordering of positive debits clips the same total.
  lemma {:induction false} AnyOrderClips(m: Budgets, schedule: seq<Debit>, flat: seq<Debit>, c: CampaignId, total: int)
    requires multiset(schedule) == multiset(flat) && Budget(m, c) >= 0 && Debited(flat, c) == total
    requires forall d :: d in flat ==> d.amount > 0
    ensures Budget(CommitAll(m, schedule), c) == Max0(Budget(m, c) - total)
  {
    DebitedPermutes(schedule, flat, c);
    forall d | d in schedule ensures d in flat {
      assert multiset(schedule)[d] > 0;
      assert multiset(flat)[d] > 0;
    }
    CommitAllClips(m, schedule, c);
  }

  // Budgets after every schedule, for amounts of any sign: however the debits of all batches
  // interleave, a routed campaign ends at its old budget less what the batches charge, clipped at
  // zero, and any other campaign keeps its budget.
  lemma {:induction false} BudgetsAfterSchedule(m: Budgets, batches: seq<seq<Txn>>, parts: seq<seq<Debit>>, schedule: seq<Debit>,
                                                routed: iset<CampaignId>, c: CampaignId)
    requires |parts| == |batches| && multiset(schedule) == multiset(Flatten(parts))
    requires forall i :: 0 <= i < |parts| ==> DebitsOf(parts[i], batches[i], routed)
    requires Budget(m, c) >= 0
    ensures Budget(CommitAll(m, schedule), c) == if c in routed then Max0(Budget(m, c) - Charged(batches, c)) else Budget(m, c)
  {
    AllBatches(parts, batches, routed, c);
    AnyOrderClips(m, schedule, Flatten(parts), c, if c in routed then Charged(batches, c) else 0);
  }

  // So for non-negative transactions the split into batches does not matter either.
  lemma {:induction false} BudgetsAfterAnySchedule(m: Budgets, batches: seq<seq<Txn>>, parts: seq<seq<Debit>>, schedule: seq<Debit>,
                                routed: iset<CampaignId>, c: CampaignId)
    requires |parts| == |batches| && multiset(schedule) == multiset(Flatten(parts))
    requires forall i :: 0 <= i < |parts| ==> DebitsOf(parts[i], batches[i], routed)
    requires NonNegative(batches) && Budget(m, c) >= 0
    ensures Budget(CommitAll(m, schedule), c) == if c in routed then Max0(Budget(m, c) - Total(Flatten(batches), c)) else Budget(m, c)
  {
    BudgetsAfterSchedule(m, batches, parts, schedule, routed, c);
    NonNegativeCharged(batches, c);
  }

  // ---------------------------------------------------------------- when batching matters

  // The spends of a campaign, and its corrections.
  function Spends(txns: seq<Txn>, c: CampaignId): nat {
    if txns == [] then 0
    else Spends(txns[..|txns| - 1], c) + (if txns[|txns| - 1].campaign == c then Max0(txns[|txns| - 1].amount) else 0)
  }

  function Corrections(txns: seq<Txn>, c: CampaignId): nat {
    if txns == [] then 0
    else Corrections(txns[..|txns| - 1], c) + (if txns[|txns| - 1].campaign == c then Max0(-txns[|txns| - 1].amount) else 0)
  }

  lemma {:induction false} TotalSplits(txns: seq<Txn>, c: CampaignId)
    ensures Total(txns, c) == Spends(txns, c) - Corrections(txns, c)
    ensures Spends(txns, c) == 0 <==> forall i :: 0 <= i < |txns| && txns[i].campaign == c ==> txns[i].amount <= 0
    ensures Corrections(txns, c) == 0 <==> forall i :: 0 <= i < |txns| && txns[i].campaign == c ==> txns[i].amount >= 0
  {
    if txns != [] {
      var n := |txns| - 1;
      TotalSplits(txns[..n], c);
      assert forall i :: 0 <= i < n ==> txns[..n][i] == txns[i];
    }
  }

  lemma {:induction false} SplitsAdd(a: seq<Txn>, b: seq<Txn>, c: CampaignId)
    ensures Spends(a + b, c) == Spends(a, c) + Spends(b, c) && Corrections(a + b, c) == Corrections(a, c) + Corrections(b, c)
  {
    if b == [] {
      assert a + b == a;
    } else {
      SplitsAdd(a, b[..|b| - 1], c);
      assert (a + b)[..|a + b| - 1] == a + b[..|b| - 1];
    }
  }

  lemma {:induction false} OneSignCharged(batches: seq<seq<Txn>>, c: CampaignId)
    ensures Corrections(Flatten(batches), c) == 0 ==> Charged(batches, c) == Spends(Flatten(batches), c)
    ensures Spends(Flatten(batches), c) == 0 ==> Charged(batches, c) == 0
  {
    if batches != [] {
      OneSignCharged(batches[1..], c);
      SplitsAdd(batches[0], Flatten(batches[1..]), c);
      TotalSplits(batches[0], c);
    }
  }

  function Singles(txns: seq<Txn>): seq<seq<Txn>> {
    if txns == [] then [] else [[txns[0]]] + Singles(txns[1..])
  }

  lemma {:induction false} SinglesCharge(txns: seq<Txn>, c: CampaignId)
    ensures Flatten(Singles(txns)) == txns && Charged(Singles(txns), c) == Spends(txns, c)
  {
    if txns != [] {
      SinglesCharge(txns[1..], c);
      SplitsAdd([txns[0]], txns[1..], c);
      assert txns == [txns[0]] + txns[1..] && [txns[0]][..0] == [];
      assert Singles(txns)[0] == [txns[0]] && Singles(txns)[1..] == Singles(txns[1..]);
      assert Total([txns[0]], c) == if txns[0].campaign == c then txns[0].amount else 0;
      assert Spends([txns[0]], c) == Max0(Total([txns[0]], c));
    }
  }

  lemma OneBatch(txns: seq<Txn>, c: CampaignId)
    ensures Flatten([txns]) == txns && Charged([txns], c) == Max0(Total(txns, c))
  {
    assert [txns][1..] == [];
    assert txns + [] == txns;
  }

  // Exactly when the split of a list of transactions into batches does not matter for what a
  // campaign is charged: its amounts are all non-negative or all non-positive. A batch whose
  // total is not positive is skipped, so a correction only counts with what it corrects.
  lemma BatchingIrrelevantIff(txns: seq<Txn>, c: CampaignId)
    ensures (forall batches :: Flatten(batches) == txns ==> Charged(batches, c) == Charged([txns], c)) <==>
              || (forall i :: 0 <= i < |txns| && txns[i].campaign == c ==> txns[i].amount >= 0)
              || (forall i :: 0 <= i < |txns| && txns[i].campaign == c ==> txns[i].amount <= 0)
  {
    TotalSplits(txns, c);
    OneBatch(txns, c);
    SinglesCharge(txns, c);
    if Spends(txns, c) == 0 || Corrections(txns, c) == 0 {
      OneSignCharged([txns], c);
      forall batches | Flatten(batches) == txns ensures Charged(batches, c) == Charged([txns], c) {
        OneSignCharged(batches, c);
      }
    } else {
      assert Charged(Singles(txns), c) != Charged([txns], c);
    }
  }

  // ---------------------------------------------------------------- building a batch

  function ItemOf(key: string, t: Txn): Item { Item(t.campaign, t.amount, PREFIX + key + ":" + t.id) }

  function Deltas(txns: seq<Txn>): map<CampaignId, int> {
    if txns == [] then map[]
    else
      var m, t := Deltas(txns[..|txns| - 1]), txns[|txns| - 1];
      m[t.campaign := (if t.campaign in m then m[t.campaign] else 0) + t.amount]
  }

  lemma {:induction false} DeltasAreTotals(txns: seq<Txn>, c: CampaignId)
    ensures c in Deltas(txns) <==> exists i :: 0 <= i < |txns| && txns[i].campaign == c
    ensures if c in Deltas(txns) then Deltas(txns)[c] == Total(txns, c) else Total(txns, c) == 0
  {
    if txns != [] {
      var rest := txns[..|txns| - 1];
      DeltasAreTotals(rest, c);
      assert txns == rest + [txns[|txns| - 1]];
      if i :| 0 <= i < |rest| && rest[i].campaign == c { assert txns[i].campaign == c; }
    }
  }

  // Builds the ledger items and the per-campaign deltas of a batch.
  method BuildBatch(key: string, txns: seq<Txn>) returns (items: seq<Item>, deltas: map<CampaignId, int>)
    ensures |items| == |txns| && forall i :: 0 <= i < |txns| ==>
              items[i] == Item(txns[i].campaign, txns[i].amount, "global_spend:" + key + ":" + txns[i].id)
    ensures forall c :: c in deltas <==> exists i :: 0 <= i < |txns| && txns[i].campaign == c
    ensures forall c :: c in deltas ==> deltas[c] == Total(txns, c)
    ensures forall c :: c !in deltas ==> Total(txns, c) == 0
  {
    items, deltas := [], map[];
    for n := 0 to |txns|
      invariant |items| == n && forall i :: 0 <= i < n ==> items[i] == ItemOf(key, txns[i])
      invariant deltas == Deltas(txns[..n])
    {
      var t := txns[n];
      items := items + [ItemOf(key, t)];
      deltas := deltas[t.campaign := (if t.campaign in deltas then deltas[t.campaign] else 0) + t.amount];
      assert txns[..n + 1][..n] == txns[..n];
    }
    assert txns[..|txns|] == txns;
    forall c { DeltasAreTotals(txns, c); }
  }

  // ---------------------------------------------------------------- the queue

  // The two copies the queue makes: into the room left, and of what it holds.
  method CopyInto(a: array<Txn>, at: nat, txns: array<Txn>)
    requires at + txns.Length <= a.Length && a != txns
    modifies a
    ensures a[..at + txns.Length] == old(a[..at]) + txns[..]
  {
    forall i | 0 <= i < txns.Length { a[at + i] := txns[i]; }
  }

  method CopyOf(a: array<Txn>, n: nat, capacity: nat) returns (copy: array<Txn>)
    requires n <= a.Length && n <= capacity
    ensures fresh(copy) && copy.Length == capacity && copy[..n] == a[..n]
  {
    copy := new Txn[capacity];
    forall i | 0 <= i < n { copy[i] := a[i]; }
  }

  function Contents(batches: seq<array<Txn>>): seq<Txn>
    reads batches
  {
    if batches == [] then [] else Contents(batches[..|batches| - 1]) + batches[|batches| - 1][..]
  }

  /**
   The pending queue: a backing array of which the first `len` cells are pending. `enqueued`,
   `handed` and `batches` are ghost: everything ever enqueued, everything handed to a flush so
   far, and the arrays it was handed over in. Valid says that nothing is lost, repeated or
   reordered, and that every batch still holds what was handed over and shares no cell with the
   queue, under every interleaving of the calls.
   */
  class PendingQueue {
    const minBatchSize: nat
    var pending: array<Txn>
    var len: nat
    ghost var enqueued: seq<Txn>
    ghost var handed: seq<Txn>
    ghost var batches: seq<array<Txn>>

    ghost predicate Valid()
      reads this, pending, batches
    {
      && len <= pending.Length && enqueued == handed + pending[..len]
      && pending !in batches && Distinct(batches) && Contents(batches) == handed
    }

    constructor (minBatch: int)
      ensures Valid() && enqueued == [] && batches == [] && fresh(pending)
      ensures minBatchSize == if minBatch <= 0 then 100 else minBatch
    {
      minBatchSize := if minBatch <= 0 then 100 else minBatch;
      pending := new Txn[0];
      len, enqueued, handed, batches := 0, [], [], [];
    }

    // append: in place when the backing array has room, else into a larger copy.
    method Enqueue(txns: array<Txn>)
      requires Valid() && txns != pending
      modifies this, pending
      ensures Valid() && enqueued == old(enqueued) + old(txns[..]) && handed == old(handed) && batches == old(batches)
      ensures pending[..len] == old(pending[..len]) + old(txns[..])
      ensures pending == old(pending) || fresh(pending)
    {
      if txns.Length == 0 { return; }
      if len + txns.Length > pending.Length { Grow(2 * (len + txns.Length)); }
      CopyInto(pending, len, txns);
      len := len + txns.Length;
      enqueued := enqueued + txns[..];
    }

    method Grow(capacity: nat)
      requires Valid() && len <= capacity
      modifies this
      ensures Valid() && fresh(pending) && pending.Length == capacity && pending[..len] == old(pending[..len])
      ensures len == old(len) && enqueued == old(enqueued) && handed == old(handed) && batches == old(batches)
    {
      pending := CopyOf(pending, len, capacity);
    }

    // Hands over a copy, so the batch in flight shares no cell with the queue that is reused.
    method FlushPending() returns (batch: Option<array<Txn>>)
      requires Valid()
      modifies this
      ensures Valid() && enqueued == old(enqueued) && pending == old(pending)
      ensures batch.None? <==> old(len) < minBatchSize
      ensures batch.None? ==> len == old(len) && handed == old(handed) && batches == old(batches)
      ensures batch.Some? ==>
                && fresh(batch.value) && batches == old(batches) + [batch.value]
                && batch.value[..] == old(pending[..len]) && len == 0
                && handed == old(handed) + batch.value[..]
    {
      if len < minBatchSize { return None; }
      var copy := CopyOf(pending, len, len);
      handed, batches := handed + copy[..], batches + [copy];
      assert batches[..|batches| - 1] == old(batches);
      len := 0;
      return Some(copy);
    }
  }

  datatype Call = Enqueue(txns: array<Txn>) | Flush

  function Appended(calls: seq<Call>): seq<Txn>
    reads set c | c in calls && c.Enqueue? :: c.txns
  {
    if calls == [] then []
    else
      var last := calls[|calls| - 1];
      Appended(calls[..|calls| - 1]) + if last.Enqueue? then last.txns[..] else []
  }

  // Whatever is enqueued and flushed afterwards, in any number of calls and any order: no batch
  // handed over before changes, the order is kept, and nothing is lost.
  method BatchesStayIntact(q: PendingQueue, calls: seq<Call>)
    requires q.Valid() && forall i :: 0 <= i < |calls| && calls[i].Enqueue? ==> calls[i].txns != q.pending
    modifies q, q.pending
    ensures q.Valid() && old(q.batches) <= q.batches
    ensures forall b :: b in old(q.batches) ==> b[..] == old(b[..])
    ensures q.enqueued == old(q.enqueued) + old(Appended(calls))
  {
    for n := 0 to |calls|
      invariant q.Valid() && old(q.batches) <= q.batches && (q.pending == old(q.pending) || fresh(q.pending))
      invariant forall b :: b in old(q.batches) ==> b[..] == old(b[..])
      invariant forall i :: 0 <= i < |calls| && calls[i].Enqueue? ==> calls[i].txns[..] == old(calls[i].txns[..])
      invariant q.enqueued == old(q.enqueued) + old(Appended(calls[..n]))
    {
      assert calls[..n + 1][..n] == calls[..n];
      match calls[n]
      case Enqueue(txns) => q.Enqueue(txns);
      case Flush => var _ := q.FlushPending();
    }
    assert calls[..|calls|] == calls;
  }
}
