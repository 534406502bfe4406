/**
 Applying a batch of spend: the ledger takes its items chunk by chunk, one transaction per chunk and
 one savepoint per item; then Redis is debited by the totals of the whole batch. An item whose
 idempotency row exists, or whose customer cannot pay, is left out of the ledger without an error.
 */
module SpendFlush {
  import opened Common
  import opened SpendReconciler

  const MAX_LEDGER_BATCH := 32

  // What the customer's row and the statements of an item would answer; a duplicate never asks.
  datatype Verdict = Fine | Insufficient | Error

  // The idempotency rows, and the entries booked, in order.
  datatype Books = Books(applied: set<string>, booked: seq<Item>)

  // ---------------------------------------------------------------- one item, one chunk

  predicate Takes(b: Books, item: Item, v: Verdict) { item.id !in b.applied && v == Fine }

  function FlushItem(b: Books, item: Item, v: Verdict): Books {
    if Takes(b, item, v) then Books(b.applied + {item.id}, b.booked + [item]) else b
  }

  function FlushItems(b: Books, items: seq<Item>, vs: seq<Verdict>): Books
    requires |items| == |vs|
    decreases |items|
  {
    if items == [] then b else FlushItems(FlushItem(b, items[0], vs[0]), items[1..], vs[1..])
  }

  // No item meets an error other than an insufficient balance.
  predicate NoneFails(b: Books, items: seq<Item>, vs: seq<Verdict>)
    requires |items| == |vs|
    decreases |items|
  {
    items == [] ||
    (!(items[0].id !in b.applied && vs[0] == Error) && NoneFails(FlushItem(b, items[0], vs[0]), items[1..], vs[1..]))
  }

  lemma {:induction false} FlushTwoParts(b: Books, x: seq<Item>, u: seq<Verdict>, y: seq<Item>, v: seq<Verdict>)
    requires |x| == |u| && |y| == |v|
    ensures FlushItems(b, x + y, u + v) == FlushItems(FlushItems(b, x, u), y, v)
    ensures NoneFails(b, x + y, u + v) <==> NoneFails(b, x, u) && NoneFails(FlushItems(b, x, u), y, v)
    decreases |x|
  {
    if x == [] {
      assert x + y == y && u + v == v;
    } else {
      FlushTwoParts(FlushItem(b, x[0], u[0]), x[1..], u[1..], y, v);
      assert (x + y)[1..] == x[1..] + y && (u + v)[1..] == u[1..] + v;
    }
  }

  // The first item of its id that can be paid, and none was booked under that id before.
  ghost predicate FirstPayable(b: Books, items: seq<Item>, vs: seq<Verdict>, k: nat)
    requires |items| == |vs| && k < |items|
  {
    vs[k] == Fine && items[k].id !in b.applied && forall j :: 0 <= j < k && vs[j] == Fine ==> items[j].id != items[k].id
  }

  ghost predicate Picks(b: Books, items: seq<Item>, vs: seq<Verdict>, ks: seq<nat>)
    requires |items| == |vs|
  {
    && (forall i :: 0 <= i < |ks| ==> ks[i] < |items| && FirstPayable(b, items, vs, ks[i]))
    && (forall i, j :: 0 <= i < j < |ks| ==> ks[i] < ks[j])
    && (forall k :: 0 <= k < |items| && FirstPayable(b, items, vs, k) ==> k in ks)
  }

  function Select(items: seq<Item>, ks: seq<nat>): seq<Item>
    requires forall i :: 0 <= i < |ks| ==> ks[i] < |items|
  {
    seq(|ks|, i requires 0 <= i < |ks| => items[ks[i]])
  }

  lemma {:induction false} FlushApplies(b: Books, items: seq<Item>, vs: seq<Verdict>)
    requires |items| == |vs|
    ensures forall id :: id in FlushItems(b, items, vs).applied <==>
              id in b.applied || exists k :: 0 <= k < |items| && vs[k] == Fine && items[k].id == id
    decreases |items|
  {
    if items != [] {
      var n := |items| - 1;
      FlushApplies(b, items[..n], vs[..n]);
      LastItem(b, items, vs);
    }
  }

  lemma LastItem(b: Books, items: seq<Item>, vs: seq<Verdict>)
    requires |items| == |vs| && items != []
    ensures var n := |items| - 1;
            FlushItems(b, items, vs) == FlushItem(FlushItems(b, items[..n], vs[..n]), items[n], vs[n])
  {
    var n := |items| - 1;
    FlushTwoParts(b, items[..n], vs[..n], [items[n]], [vs[n]]);
    assert items == items[..n] + [items[n]] && vs == vs[..n] + [vs[n]];
    var at := FlushItems(b, items[..n], vs[..n]);
    assert [items[n]][1..] == [] && [vs[n]][1..] == [];
    assert FlushItems(at, [items[n]], [vs[n]]) == FlushItem(at, items[n], vs[n]);
  }

  lemma Payable(b: Books, items: seq<Item>, vs: seq<Verdict>)
    requires |items| == |vs| && items != []
    ensures var n := |items| - 1;
            && (FirstPayable(b, items, vs, n) <==> Takes(FlushItems(b, items[..n], vs[..n]), items[n], vs[n]))
            && forall k :: 0 <= k < n ==> (FirstPayable(b, items[..n], vs[..n], k) <==> FirstPayable(b, items, vs, k))
  {
    var n := |items| - 1;
    FlushApplies(b, items[..n], vs[..n]);
    assert forall j :: 0 <= j < n ==> items[..n][j] == items[j] && vs[..n][j] == vs[j];
    if items[n].id in FlushItems(b, items[..n], vs[..n]).applied && items[n].id !in b.applied {
      var k :| 0 <= k < n && vs[..n][k] == Fine && items[..n][k].id == items[n].id;
      assert vs[k] == Fine && items[k].id == items[n].id;
    }
  }

  lemma PicksExtend(b: Books, items: seq<Item>, vs: seq<Verdict>, before: seq<nat>, ks: seq<nat>)
    requires |items| == |vs| && items != [] && Picks(b, items[..|items| - 1], vs[..|items| - 1], before)
    requires ks == if FirstPayable(b, items, vs, |items| - 1) then before + [|items| - 1] else before
    ensures Picks(b, items, vs, ks)
  {
    var n := |items| - 1;
    Payable(b, items, vs);
    forall i | 0 <= i < |ks| ensures ks[i] < |items| && FirstPayable(b, items, vs, ks[i]) {
      if i < |before| { assert ks[i] == before[i] && FirstPayable(b, items[..n], vs[..n], before[i]); }
    }
    forall k | 0 <= k < |items| && FirstPayable(b, items, vs, k) ensures k in ks {
      if k < n { assert FirstPayable(b, items[..n], vs[..n], k) && k in before; }
    }
  }

  lemma SelectExtend(items: seq<Item>, before: seq<nat>, ks: seq<nat>)
    requires items != [] && (forall i :: 0 <= i < |before| ==> before[i] < |items| - 1)
    requires ks == before || ks == before + [|items| - 1]
    ensures Select(items, ks) == Select(items[..|items| - 1], before) + (if ks == before then [] else [items[|items| - 1]])
  {
  }

  // Exactly what a flush books, in order: of every id not booked before, the first item that can be
  // paid. An item that cannot be paid is never booked and does not stand in the way of a later one.
  lemma {:induction false} FlushBooksFirstPayable(b: Books, items: seq<Item>, vs: seq<Verdict>) returns (ks: seq<nat>)
    requires |items| == |vs|
    ensures Picks(b, items, vs, ks) && FlushItems(b, items, vs).booked == b.booked + Select(items, ks)
    decreases |items|
  {
    if items == [] {
      ks := [];
    } else {
      var n := |items| - 1;
      var before := FlushBooksFirstPayable(b, items[..n], vs[..n]);
      ks := if FirstPayable(b, items, vs, n) then before + [n] else before;
      PicksExtend(b, items, vs, before, ks);
      LastBooked(b, items, vs);
      SelectExtend(items, before, ks);
      Regroup(b.booked, Select(items[..n], before), if ks == before then [] else [items[n]]);
    }
  }

  lemma Regroup(a: seq<Item>, b: seq<Item>, c: seq<Item>)
    ensures (a + b) + c == a + (b + c)
  {
  }

  lemma LastBooked(b: Books, items: seq<Item>, vs: seq<Verdict>)
    requires |items| == |vs| && items != []
    ensures var n := |items| - 1;
            FlushItems(b, items, vs).booked ==
            FlushItems(b, items[..n], vs[..n]).booked + (if FirstPayable(b, items, vs, n) then [items[n]] else [])
  {
    LastItem(b, items, vs);
    Payable(b, items, vs);
  }

  ghost predicate KnownBy(b: Books, items: seq<Item>, vs: seq<Verdict>, k: nat)
    requires |items| == |vs| && k < |items|
  {
    items[k].id in b.applied || exists j :: 0 <= j < k && vs[j] == Fine && items[j].id == items[k].id
  }

  // A flush fails exactly when an item whose id is not known by then meets an error.
  lemma {:induction false} NoneFailsIff(b: Books, items: seq<Item>, vs: seq<Verdict>)
    requires |items| == |vs|
    ensures NoneFails(b, items, vs) <==> forall k :: 0 <= k < |items| && vs[k] == Error ==> KnownBy(b, items, vs, k)
    decreases |items|
  {
    if items != [] {
      var n := |items| - 1;
      var x, u := items[..n], vs[..n];
      NoneFailsIff(b, x, u);
      FlushApplies(b, x, u);
      FlushTwoParts(b, x, u, [items[n]], [vs[n]]);
      assert items == x + [items[n]] && vs == u + [vs[n]];
      assert forall j :: 0 <= j < n ==> x[j] == items[j] && u[j] == vs[j];
      assert forall k :: 0 <= k < n ==> (KnownBy(b, x, u, k) <==> KnownBy(b, items, vs, k));
      LastFails(FlushItems(b, x, u), items[n], vs[n]);
      KnownLast(b, items, vs);
    }
  }

  lemma LastFails(b: Books, item: Item, v: Verdict)
    ensures NoneFails(b, [item], [v]) <==> !(item.id !in b.applied && v == Error)
  {
    assert [item][1..] == [] && [v][1..] == [];
  }

  lemma KnownLast(b: Books, items: seq<Item>, vs: seq<Verdict>)
    requires |items| == |vs| && items != []
    ensures var n := |items| - 1; KnownBy(b, items, vs, n) <==> items[n].id in FlushItems(b, items[..n], vs[..n]).applied
  {
    var n := |items| - 1;
    FlushApplies(b, items[..n], vs[..n]);
    assert forall j :: 0 <= j < n ==> items[..n][j] == items[j] && vs[..n][j] == vs[j];
    if j :| 0 <= j < n && vs[j] == Fine && items[j].id == items[n].id { assert vs[..n][j] == Fine; }
  }

  class SpendLedger {
    var applied: set<string>
    var booked: seq<Item>

    ghost function State(): Books
      reads this
    {
      Books(applied, booked)
    }

    // One chunk in one transaction; `commits`: beginning and committing it succeed.
    method UpdateSpendBatch(items: seq<Item>, vs: seq<Verdict>, commits: bool) returns (ok: bool)
      requires |items| == |vs|
      modifies this
      ensures ok == (commits && NoneFails(old(State()), items, vs))
      ensures State() == if ok then FlushItems(old(State()), items, vs) else old(State())
    {
      var saved := (applied, booked);
      for i := 0 to |items|
        invariant FlushItems(State(), items[i..], vs[i..]) == FlushItems(old(State()), items, vs)
        invariant NoneFails(State(), items[i..], vs[i..]) == NoneFails(old(State()), items, vs)
      {
        assert items[i..][1..] == items[i + 1..] && vs[i..][1..] == vs[i + 1..];
        if items[i].id !in applied {
          if vs[i] == Error {
            applied, booked := saved.0, saved.1;
            return false;
          }
          if vs[i] == Fine { applied, booked := applied + {items[i].id}, booked + [items[i]]; }
        }
      }
      if !commits { applied, booked := saved.0, saved.1; }
      return commits;
    }
  }

  // ---------------------------------------------------------------- chunk by chunk

  function Chunks(n: nat): nat { (n + MAX_LEDGER_BATCH - 1) / MAX_LEDGER_BATCH }

  // Where the chunk that starts at n ends.
  function ChunkEnd(n: nat, size: nat): nat { if n + MAX_LEDGER_BATCH < size then n + MAX_LEDGER_BATCH else size }

  // `done`: how many items the committed chunks hold. Splitting into chunks does not change what is
  // booked; the first chunk that fails ends the flush with nothing of it booked.
  method FlushChunks(ledger: SpendLedger, items: seq<Item>, vs: seq<Verdict>, commits: nat -> bool) returns (ok: bool, done: nat)
    requires |items| == |vs|
    modifies ledger
    ensures done <= |items| && ledger.State() == FlushItems(old(ledger.State()), items[..done], vs[..done])
    ensures NoneFails(old(ledger.State()), items[..done], vs[..done])
    ensures ok <==> done == |items|
    ensures ok <==> NoneFails(old(ledger.State()), items, vs) && forall k: nat :: 32 * k < |items| ==> commits(k)
    ensures !ok ==> done % 32 == 0
  {
    ghost var before := ledger.State();
    done := 0;
    ghost var k := 0;
    while done < |items|
      invariant 0 <= done <= |items| && (done < |items| ==> done == k * MAX_LEDGER_BATCH)
      invariant k == Chunks(done) && forall j :: 0 <= j < k ==> commits(j)
      invariant ledger.State() == FlushItems(before, items[..done], vs[..done]) && NoneFails(before, items[..done], vs[..done])
      decreases |items| - done
    {
      var end := ChunkEnd(done, |items|);
      ghost var at := ledger.State();
      ok := ledger.UpdateSpendBatch(items[done..end], vs[done..end], commits(done / MAX_LEDGER_BATCH));
      if !ok {
        FailedChunk(before, items, vs, done, end);
        return;
      }
      NextChunk(before, items, vs, done, end);
      k := k + 1;
      done := end;
    }
    ok := true;
    assert items[..done] == items && vs[..done] == vs;
  }

  lemma {:induction false} NextChunk(b: Books, items: seq<Item>, vs: seq<Verdict>, n: nat, end: nat)
    requires |items| == |vs| && n <= end <= |items|
    ensures var at := FlushItems(b, items[..n], vs[..n]);
            && FlushItems(b, items[..end], vs[..end]) == FlushItems(at, items[n..end], vs[n..end])
            && (NoneFails(b, items[..end], vs[..end]) <==> NoneFails(b, items[..n], vs[..n]) && NoneFails(at, items[n..end], vs[n..end]))
  {
    FlushTwoParts(b, items[..n], vs[..n], items[n..end], vs[n..end]);
    assert items[..n] + items[n..end] == items[..end] && vs[..n] + vs[n..end] == vs[..end];
  }

  lemma {:induction false} FailedChunk(b: Books, items: seq<Item>, vs: seq<Verdict>, n: nat, end: nat)
    requires |items| == |vs| && n <= end <= |items|
    ensures NoneFails(b, items, vs) ==> NoneFails(FlushItems(b, items[..n], vs[..n]), items[n..end], vs[n..end])
  {
    NextChunk(b, items, vs, n, end);
    NextChunk(b, items, vs, end, |items|);
    assert items[..|items|] == items && vs[..|vs|] == vs;
  }

  // ---------------------------------------------------------------- the batch

  function Items(key: string, txns: seq<Txn>): seq<Item> {
    seq(|txns|, i requires 0 <= i < |txns| => ItemOf(key, txns[i]))
  }

  datatype Applied = Unavailable | TooSmall | LedgerFailed | Committed(debits: map<CampaignId, int>)

  // Which of the four outcomes occurs, what is booked in each, and the debit of a committed batch:
  // its totals, whatever the ledger left out.
  method ApplyBatch(ledger: SpendLedger, minBatch: nat, key: string, txns: seq<Txn>, available: bool, vs: seq<Verdict>,
                    commits: nat -> bool)
    returns (r: Applied)
    requires |vs| == |txns|
    modifies ledger
    ensures r == Unavailable <==> !available
    ensures r == TooSmall <==> available && |txns| < minBatch
    ensures r.Committed? <==> available && |txns| >= minBatch && NoneFails(old(ledger.State()), Items(key, txns), vs)
                              && forall k: nat :: 32 * k < |txns| ==> commits(k)
    ensures r.Unavailable? || r.TooSmall? ==> ledger.State() == old(ledger.State())
    ensures r.Committed? ==>
              && ledger.State() == FlushItems(old(ledger.State()), Items(key, txns), vs)
              && forall c :: (if c in r.debits then r.debits[c] else 0) == Total(txns, c)
    ensures r.LedgerFailed? ==> exists n ::
              0 <= n < |txns| && n % MAX_LEDGER_BATCH == 0 && ledger.State() == FlushItems(old(ledger.State()), Items(key, txns)[..n], vs[..n])
  {
    if !available { return Unavailable; }
    if |txns| < minBatch { return TooSmall; }
    var items, deltas := BuildBatch(key, txns);
    assert items == Items(key, txns);
    var ok, done := FlushChunks(ledger, items, vs, commits);
    if !ok { return LedgerFailed; }
    assert items[..done] == items && vs[..done] == vs;
    return Committed(deltas);
  }

  // ---------------------------------------------------------------- booked against debited

  function ItemTotal(items: seq<Item>, c: CampaignId): int {
    if items == [] then 0
    else ItemTotal(items[..|items| - 1], c) + (if items[|items| - 1].campaign == c then items[|items| - 1].amount else 0)
  }

  // What the ledger leaves out of a campaign, as a duplicate or for want of balance.
  function LeftOut(b: Books, items: seq<Item>, vs: seq<Verdict>, c: CampaignId): int
    requires |items| == |vs|
    decreases |items|
  {
    if items == [] then 0
    else (if items[0].campaign == c && !Takes(b, items[0], vs[0]) then items[0].amount else 0)
         + LeftOut(FlushItem(b, items[0], vs[0]), items[1..], vs[1..], c)
  }

  // Some item of the campaign with a positive amount is left out.
  predicate LeavesOut(b: Books, items: seq<Item>, vs: seq<Verdict>, c: CampaignId)
    requires |items| == |vs|
    decreases |items|
  {
    items != [] &&
    ((items[0].campaign == c && items[0].amount > 0 && !Takes(b, items[0], vs[0]))
     || LeavesOut(FlushItem(b, items[0], vs[0]), items[1..], vs[1..], c))
  }

  lemma {:induction false} ItemTotalCons(item: Item, items: seq<Item>, c: CampaignId)
    ensures ItemTotal([item] + items, c) == (if item.campaign == c then item.amount else 0) + ItemTotal(items, c)
  {
    if items == [] {
      assert [item] + items == [item] && [item][..0] == [];
    } else {
      ItemTotalCons(item, items[..|items| - 1], c);
      assert ([item] + items)[..|items|] == [item] + items[..|items| - 1];
    }
  }

  lemma {:induction false} BookedPlusLeftOut(b: Books, items: seq<Item>, vs: seq<Verdict>, c: CampaignId)
    requires |items| == |vs|
    ensures ItemTotal(FlushItems(b, items, vs).booked, c) + LeftOut(b, items, vs, c) == ItemTotal(b.booked, c) + ItemTotal(items, c)
    decreases |items|
  {
    if items != [] {
      var next := FlushItem(b, items[0], vs[0]);
      BookedPlusLeftOut(next, items[1..], vs[1..], c);
      ItemTotalCons(items[0], items[1..], c);
      assert items == [items[0]] + items[1..];
      if Takes(b, items[0], vs[0]) { assert next.booked[..|b.booked|] == b.booked; }
    }
  }

  lemma {:induction false} ItemsTotal(key: string, txns: seq<Txn>, c: CampaignId)
    ensures ItemTotal(Items(key, txns), c) == Total(txns, c)
  {
    if txns != [] {
      ItemsTotal(key, txns[..|txns| - 1], c);
      assert Items(key, txns)[..|txns| - 1] == Items(key, txns[..|txns| - 1]);
    }
  }

  lemma {:induction false} NonNegativeLeftOut(b: Books, items: seq<Item>, vs: seq<Verdict>, c: CampaignId)
    requires |items| == |vs| && forall i :: 0 <= i < |items| ==> items[i].amount >= 0
    ensures LeftOut(b, items, vs, c) >= 0 && (LeftOut(b, items, vs, c) == 0 <==> !LeavesOut(b, items, vs, c))
    decreases |items|
  {
    if items != [] { NonNegativeLeftOut(FlushItem(b, items[0], vs[0]), items[1..], vs[1..], c); }
  }

  // What a committed batch books for a campaign, against the total Redis is debited by: they agree
  // if and only if its duplicate and unpaid items sum to zero; for non-negative amounts, if and
  // only if none of those has a positive amount.
  lemma DebitMatchesLedgerIff(b: Books, key: string, txns: seq<Txn>, vs: seq<Verdict>, c: CampaignId)
    requires |vs| == |txns|
    ensures var items := Items(key, txns);
            var newly := ItemTotal(FlushItems(b, items, vs).booked, c) - ItemTotal(b.booked, c);
            && (newly == Total(txns, c) <==> LeftOut(b, items, vs, c) == 0)
            && ((forall t :: t in txns ==> t.amount >= 0) ==>
                  newly <= Total(txns, c) && (newly == Total(txns, c) <==> !LeavesOut(b, items, vs, c)))
  {
    var items := Items(key, txns);
    BookedPlusLeftOut(b, items, vs, c);
    ItemsTotal(key, txns, c);
    if forall t :: t in txns ==> t.amount >= 0 { NonNegativeLeftOut(b, items, vs, c); }
  }

  // ---------------------------------------------------------------- new transactions

  // Two items of a batch share an id if and only if their transactions do; items of different
  // batch keys never do, unless a key contains the separator.
  lemma ItemIdsEqualIff(key: string, t: Txn, other: string, u: Txn)
    requires key == other || (':' !in key && ':' !in other)
    ensures ItemOf(key, t).id == ItemOf(other, u).id <==> key == other && t.id == u.id
  {
    assert ItemOf(key, t).id == PREFIX + (key + ":" + t.id) && ItemOf(other, u).id == PREFIX + (other + ":" + u.id);
    if ItemOf(key, t).id == ItemOf(other, u).id {
      CancelFront(PREFIX, key + ":" + t.id, other + ":" + u.id);
      if key != other {
        KeyIsUpToSeparator(key, t.id);
        KeyIsUpToSeparator(other, u.id);
      }
      CancelFront(key + ":", t.id, u.id);
    }
  }

  lemma CancelFront(front: string, x: string, y: string)
    requires front + x == front + y
    ensures x == y
  {
    assert (front + x)[|front|..] == x && (front + y)[|front|..] == y;
  }

  function UpToSeparator(s: string): string {
    if s == [] || s[0] == ':' then [] else [s[0]] + UpToSeparator(s[1..])
  }

  lemma {:induction false} KeyIsUpToSeparator(key: string, x: string)
    requires ':' !in key
    ensures UpToSeparator(key + ":" + x) == key
  {
    if key != [] {
      KeyIsUpToSeparator(key[1..], x);
      assert (key + ":" + x)[1..] == key[1..] + ":" + x;
    }
  }

  ghost predicate NewIds(b: Books, items: seq<Item>) {
    && (forall i :: 0 <= i < |items| ==> items[i].id !in b.applied)
    && forall i, j :: 0 <= i < j < |items| ==> items[i].id != items[j].id
  }

  lemma NewIdsTail(b: Books, items: seq<Item>)
    requires items != [] && items[0].id !in b.applied
    ensures NewIds(b, items) <==> NewIds(FlushItem(b, items[0], Fine), items[1..])
  {
    var next, tail := FlushItem(b, items[0], Fine), items[1..];
    assert forall i :: 0 < i < |items| ==> items[i] == tail[i - 1];
    if NewIds(next, tail) {
      forall i, j | 0 <= i < j < |items| ensures items[i].id != items[j].id {
        assert tail[j - 1].id !in next.applied;
        if i > 0 { assert tail[i - 1].id != tail[j - 1].id; }
      }
    }
  }

  // Of items that can all be paid, everything is booked in order if and only if all ids are new.
  lemma {:induction false} BooksAllIff(b: Books, items: seq<Item>, vs: seq<Verdict>)
    requires |items| == |vs| && forall i :: 0 <= i < |vs| ==> vs[i] == Fine
    ensures |FlushItems(b, items, vs).booked| <= |b.booked| + |items|
    ensures |FlushItems(b, items, vs).booked| == |b.booked| + |items| <==> NewIds(b, items)
    ensures NewIds(b, items) ==> FlushItems(b, items, vs).booked == b.booked + items
    decreases |items|
  {
    if items != [] {
      var next := FlushItem(b, items[0], vs[0]);
      BooksAllIff(next, items[1..], vs[1..]);
      if items[0].id !in b.applied {
        NewIdsTail(b, items);
        assert b.booked + [items[0]] + items[1..] == b.booked + items;
      }
    }
  }

  // The transactions are new to the ledger under this batch key, and no two have one id.
  ghost predicate NewTxns(b: Books, key: string, txns: seq<Txn>) {
    && (forall i :: 0 <= i < |txns| ==> "global_spend:" + key + ":" + txns[i].id !in b.applied)
    && forall i, j :: 0 <= i < j < |txns| ==> txns[i].id != txns[j].id
  }

  lemma NewTxnsIff(b: Books, key: string, txns: seq<Txn>)
    ensures NewIds(b, Items(key, txns)) <==> NewTxns(b, key, txns)
  {
    var items := Items(key, txns);
    forall i, j | 0 <= i < |txns| && 0 <= j < |txns| ensures items[i].id == items[j].id <==> txns[i].id == txns[j].id {
      ItemIdsEqualIff(key, txns[i], key, txns[j]);
    }
    if NewIds(b, items) {
      forall i | 0 <= i < |txns| ensures "global_spend:" + key + ":" + txns[i].id !in b.applied {
        assert items[i].id !in b.applied;
      }
    }
  }

  // A batch whose customers can all pay books every transaction once, in order, with its campaign
  // and amount, if and only if the transactions are new and have different ids; then what is newly
  // booked for every campaign is the total Redis is debited by.
  lemma NewTxnsAllBooked(b: Books, key: string, txns: seq<Txn>, vs: seq<Verdict>)
    requires |vs| == |txns| && forall i :: 0 <= i < |vs| ==> vs[i] == Fine
    ensures var d := FlushItems(b, Items(key, txns), vs);
            && (|d.booked| == |b.booked| + |txns| <==> NewTxns(b, key, txns))
            && (NewTxns(b, key, txns) ==>
                  && b.booked <= d.booked
                  && (forall i :: 0 <= i < |txns| ==>
                        var e := d.booked[|b.booked| + i]; e.campaign == txns[i].campaign && e.amount == txns[i].amount)
                  && forall c :: ItemTotal(d.booked, c) - ItemTotal(b.booked, c) == Total(txns, c))
  {
    var items := Items(key, txns);
    BooksAllIff(b, items, vs);
    NewTxnsIff(b, key, txns);
    if NewTxns(b, key, txns) {
      forall c ensures ItemTotal(b.booked + items, c) - ItemTotal(b.booked, c) == Total(txns, c) {
        ItemsTotal(key, txns, c);
        ItemTotalAdds(b.booked, items, c);
      }
    }
  }

  lemma {:induction false} ItemTotalAdds(a: seq<Item>, b: seq<Item>, c: CampaignId)
    ensures ItemTotal(a + b, c) == ItemTotal(a, c) + ItemTotal(b, c)
  {
    if b == [] {
      assert a + b == a;
    } else {
      var n := |b| - 1;
      ItemTotalAdds(a, b[..n], c);
      assert (a + b)[..|a + b| - 1] == a + b[..n];
    }
  }

  // ---------------------------------------------------------------- applying a batch twice

  lemma {:induction false} FlushRemembers(b: Books, items: seq<Item>, vs: seq<Verdict>)
    requires |items| == |vs|
    ensures b.applied <= FlushItems(b, items, vs).applied
    ensures forall i :: 0 <= i < |items| && vs[i] == Fine ==> items[i].id in FlushItems(b, items, vs).applied
    decreases |items|
  {
    if items != [] {
      FlushRemembers(FlushItem(b, items[0], vs[0]), items[1..], vs[1..]);
      assert forall i :: 0 < i < |items| ==> items[i] == items[1..][i - 1] && vs[i] == vs[1..][i - 1];
    }
  }

  lemma {:induction false} KnownItemsSkipped(b: Books, items: seq<Item>, vs: seq<Verdict>)
    requires |items| == |vs| && forall i :: 0 <= i < |items| ==> items[i].id in b.applied
    ensures FlushItems(b, items, vs) == b && NoneFails(b, items, vs)
    decreases |items|
  {
    if items != [] { KnownItemsSkipped(b, items[1..], vs[1..]); }
  }

  // A batch whose items all got through, applied again under the same key: the ledger books
  // nothing more, no item can fail, and Redis is debited a second time by the same totals.
  method ApplyTwice(ledger: SpendLedger, minBatch: nat, key: string, txns: seq<Txn>, vs: seq<Verdict>, again: seq<Verdict>,
                    commits: nat -> bool)
    returns (first: Applied, second: Applied)
    requires |vs| == |txns| == |again| && |txns| >= minBatch
    requires (forall i :: 0 <= i < |vs| ==> vs[i] == Fine) && forall k: nat :: 32 * k < |txns| ==> commits(k)
    modifies ledger
    ensures first.Committed? && second.Committed?
    ensures ledger.State() == FlushItems(old(ledger.State()), Items(key, txns), vs)
    ensures forall c :: (if c in first.debits then first.debits[c] else 0) == Total(txns, c)
    ensures forall c :: (if c in second.debits then second.debits[c] else 0) == Total(txns, c)
  {
    ghost var b := ledger.State();
    AllFineNoneFails(b, Items(key, txns), vs);
    first := ApplyBatch(ledger, minBatch, key, txns, true, vs, commits);
    FlushRemembers(b, Items(key, txns), vs);
    KnownItemsSkipped(ledger.State(), Items(key, txns), again);
    second := ApplyBatch(ledger, minBatch, key, txns, true, again, commits);
  }

  lemma {:induction false} AllFineNoneFails(b: Books, items: seq<Item>, vs: seq<Verdict>)
    requires |items| == |vs| && forall i :: 0 <= i < |vs| ==> vs[i] == Fine
    ensures NoneFails(b, items, vs)
    decreases |items|
  {
    if items != [] { AllFineNoneFails(FlushItem(b, items[0], vs[0]), items[1..], vs[1..]); }
  }
}
