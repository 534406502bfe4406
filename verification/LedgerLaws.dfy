/**
 Laws of the ledger over every run of transactions, committed or aborted, from any opening
 database: conservation of balances, uniqueness of keys and top-ups, the refund and
 chargeback ceilings of a payment, replay, and single finalisation.
 */
module LedgerLaws {
  import opened Common
  import opened Ledger

  // ---------------------------------------------------------------- sums over an append

  lemma TotalAppend(l: seq<Entry>, e: Entry, f: Entry -> int)
    ensures Total(l + [e], f) == Total(l, f) + f(e)
  {
    assert (l + [e])[..|l|] == l;
  }

  lemma {:induction false} TotalAdds(l: seq<Entry>, f: Entry -> int, g: Entry -> int, h: Entry -> int)
    requires forall e: Entry :: f(e) == g(e) + h(e)
    ensures Total(l, f) == Total(l, g) + Total(l, h)
  {
    if l != [] { TotalAdds(l[..|l| - 1], f, g, h); }
  }

  // The balance changes booked with a customer's entries, all its amounts, and its amounts of one kind.
  function Moves(c: Id): Entry -> int { (e: Entry) => if e.customer == c then Effect(e) else 0 }
  function AllOf(c: Id): Entry -> int { (e: Entry) => if e.customer == c then e.amount else 0 }
  function AllOfKind(c: Id, k: Kind): Entry -> int { (e: Entry) => if e.customer == c && e.kind == k then e.amount else 0 }

  // ---------------------------------------------------------------- the books

  ghost predicate Books(o: Db, db: Db) {
    && db.customers.Keys == o.customers.Keys
    && (forall c :: c in db.customers ==>
          && db.customers[c].balance == o.customers[c].balance + Total(db.ledger, Moves(c))
          && db.customers[c].balance + db.customers[c].overdraft >= 0)
  }

  lemma PostKeepsBooks(o: Db, db: Db, e: Entry)
    requires Books(o, db) && e.customer in db.customers
    requires MovesBalance(e) ==> BalanceAllowed(db, e.customer, Effect(e))
    ensures Books(o, Post(db, e))
  {
    var d := Post(db, e);
    forall c | c in d.customers
      ensures d.customers[c].balance == o.customers[c].balance + Total(d.ledger, Moves(c))
    {
      TotalAppend(db.ledger, e, Moves(c));
    }
  }

  // The books do not look at campaigns.
  lemma SameBooks(o: Db, db: Db, d: Db)
    requires Books(o, db) && d.customers == db.customers && d.ledger == db.ledger
    ensures Books(o, d)
  {
  }

  lemma PauseKeepsBooks(o: Db, db: Db, customer: Id, campaign: Id)
    requires Books(o, db) && customer in db.customers && campaign in db.campaigns
    ensures Books(o, PauseOne(db, customer, campaign))
  {
    var reserve := Reserve(db.campaigns[campaign]);
    if reserve > 0 {
      PostKeepsBooks(o, SetStatus(db, campaign, PAUSED), ReleaseEntry(customer, campaign, reserve));
    }
  }

  lemma {:induction false} SuspendKeepsBooks(o: Db, db: Db, customer: Id, overdraft: int, listed: seq<Id>)
    requires Books(o, db) && customer in db.customers
    ensures Suspend(db, customer, overdraft, listed).Some? ==> Books(o, Suspend(db, customer, overdraft, listed).value)
    decreases |listed|
  {
    if listed != [] && db.customers[customer].balance + overdraft < 0 && listed[0] in db.campaigns {
      SuspendKeepsBooks(o, db, customer, overdraft, listed[1..]);
      PauseKeepsBooks(o, db, customer, listed[0]);
      SuspendKeepsBooks(o, PauseOne(db, customer, listed[0]), customer, overdraft, listed[1..]);
    }
  }

  lemma SettleKeepsBooks(o: Db, db: Db, customer: Id, campaign: Id, refund: int, fee: int)
    requires Books(o, db) && (refund > 0 || fee > 0 ==> customer in db.customers)
    requires refund > 0 ==> BalanceAllowed(db, customer, refund)
    ensures Books(o, Settle(db, customer, campaign, refund, fee))
  {
    if refund > 0 { PostKeepsBooks(o, db, ReleaseEntry(customer, campaign, refund)); }
    if fee > 0 { PostKeepsBooks(o, Settle(db, customer, campaign, refund, 0), FeeEntry(customer, campaign, fee)); }
  }

  lemma ConcludeKeepsBooks(o: Db, db: Db, campaign: Id, refund: int, fee: int)
    requires Books(o, db) && campaign in db.campaigns
    ensures Books(o, Conclude(db, campaign, refund, fee).db)
  {
    if Conclude(db, campaign, refund, fee).outcome == Done {
      SettleKeepsBooks(o, db, db.campaigns[campaign].customer, campaign, refund, fee);
    }
  }

  lemma FinalizeKeepsBooks(o: Db, db: Db, campaign: Id, h: int)
    requires Books(o, db)
    ensures Books(o, DoFinalize(db, campaign, h).db)
  {
    if campaign in db.campaigns && db.campaigns[campaign].status == DRAINING {
      var fee := PercentHundredths(Reserve(db.campaigns[campaign]), h);
      ConcludeKeepsBooks(o, db, campaign, Reserve(db.campaigns[campaign]) - fee, fee);
    }
  }

  lemma OverdraftKeepsBooks(o: Db, db: Db, c: Id, overdraft: int, listed: seq<Id>)
    requires Books(o, db)
    ensures Books(o, DoSetOverdraft(db, c, overdraft, listed).db)
  {
    if c in db.customers { SuspendKeepsBooks(o, db, c, overdraft, listed); }
  }

  lemma KeyedKeepsBooks(o: Db, db: Db, r: Request)
    requires Books(o, db) && Keyed(r)
    ensures Books(o, DoKeyed(db, r).db)
  {
    if DoKeyed(db, r).outcome.Applied? {
      PostKeepsBooks(o, db, EntryOf(r));
      SameBooks(o, Post(db, EntryOf(r)), Booked(db, r));
    }
  }

  lemma TransferKeepsBooks(o: Db, db: Db, r: Request)
    requires Books(o, db) && r.Transfer?
    ensures Books(o, DoTransfer(db, r).db)
  {
    if DoTransfer(db, r).db != db {
      var released := Post(db, TransferRelease(r));
      PostKeepsBooks(o, db, TransferRelease(r));
      PostKeepsBooks(o, released, TransferFreeze(r));
      SameBooks(o, Post(released, TransferFreeze(r)), DoTransfer(db, r).db);
    }
  }

  lemma AdjustKeepsBooks(o: Db, db: Db, r: Request)
    requires Books(o, db) && r.Adjust?
    ensures Books(o, DoAdjust(db, r).db)
  {
    if DoAdjust(db, r).outcome == Done {
      PostKeepsBooks(o, db, AdjustEntry(r));
      SameBooks(o, Post(db, AdjustEntry(r)), DoAdjust(db, r).db);
    }
  }

  lemma DoKeepsBooks(o: Db, db: Db, r: Request)
    requires Books(o, db)
    ensures Books(o, Do(db, r).db)
  {
    match r
    case Transfer(_, _, _, _, _) => TransferKeepsBooks(o, db, r);
    case Adjust(_, _, _) => AdjustKeepsBooks(o, db, r);
    case Finalize(c, h) => FinalizeKeepsBooks(o, db, c, h);
    case SetOverdraft(c, od, listed) => OverdraftKeepsBooks(o, db, c, od, listed);
    case Cancel(_) =>
    case Elsewhere(_, _) =>
    case _ => KeyedKeepsBooks(o, db, r);
  }

  lemma {:induction false} RunKeepsBooks(o: Db, db: Db, steps: seq<Step>)
    requires Books(o, db)
    ensures Books(o, RunAll(db, steps))
    decreases |steps|
  {
    if steps != [] {
      if steps[0].Commit? { DoKeepsBooks(o, db, steps[0].request); }
      RunKeepsBooks(o, Perform(db, steps[0]), steps[1..]);
    }
  }

  // Conservation: after every run, a balance is its opening value plus the entries that move it,
  // and never below the customer's overdraft.
  lemma BalanceIsOpeningPlusEntries(o: Db, steps: seq<Step>, c: Id)
    requires Opening(o) && c in o.customers
    ensures var db := RunAll(o, steps);
            && c in db.customers
            && db.customers[c].balance == o.customers[c].balance + Total(db.ledger, Moves(c))
            && db.customers[c].balance + db.customers[c].overdraft >= 0
  {
    RunKeepsBooks(o, o, steps);
  }

  // How far a customer's amounts are from its balance changes: queries of the ledger.
  function Gap(l: seq<Entry>, c: Id): int {
    Total(l, AllOfKind(c, FEE)) + Total(l, AllOfKind(c, RECONCILIATION_ADJUST)) + 2 * Total(l, AllOfKind(c, FREEZE))
  }

  // The rows that count in the gap.
  predicate Unbalanced(e: Entry, c: Id) { e.customer == c && e.kind in {FEE, RECONCILIATION_ADJUST, FREEZE} }

  lemma {:induction false} AmountsAreMovesPlusGap(l: seq<Entry>, c: Id)
    ensures Total(l, AllOf(c)) == Total(l, Moves(c)) + Gap(l, c)
  {
    if l != [] { AmountsAreMovesPlusGap(l[..|l| - 1], c); }
  }

  lemma {:induction false} OneSignGap(l: seq<Entry>, c: Id)
    requires forall i :: 0 <= i < |l| && Unbalanced(l[i], c) ==> l[i].amount >= 0
    ensures Gap(l, c) >= 0
    ensures Gap(l, c) == 0 <==> forall i :: 0 <= i < |l| && Unbalanced(l[i], c) ==> l[i].amount == 0
  {
    if l != [] {
      var n := |l| - 1;
      OneSignGap(l[..n], c);
      assert forall i :: 0 <= i < n ==> l[..n][i] == l[i];
      GapAppend(l[..n], l[n], c);
      assert l == l[..n] + [l[n]];
    }
  }

  lemma GapAppend(l: seq<Entry>, e: Entry, c: Id)
    ensures Gap(l + [e], c) == Gap(l, c) + (if !Unbalanced(e, c) then 0 else if e.kind == FREEZE then 2 * e.amount else e.amount)
  {
    TotalAppend(l, e, AllOfKind(c, FEE));
    TotalAppend(l, e, AllOfKind(c, RECONCILIATION_ADJUST));
    TotalAppend(l, e, AllOfKind(c, FREEZE));
  }

  // The documented law "balance = SUM(amount)": the sum is off by exactly the FEE and
  // RECONCILIATION_ADJUST rows, which move no balance, and twice the FREEZE rows, which carry the
  // wrong sign. So for a customer none of whose such rows is negative, as without settled spend or
  // a downward adjustment, it holds if and only if there is none of them but for zero amounts.
  lemma SumOfAllEntriesIff(o: Db, steps: seq<Step>, c: Id)
    requires Opening(o) && c in o.customers
    ensures var db := RunAll(o, steps);
            var sum := o.customers[c].balance + Total(db.ledger, AllOf(c));
            && c in db.customers && sum - db.customers[c].balance == Gap(db.ledger, c)
            && ((forall i :: 0 <= i < |db.ledger| && Unbalanced(db.ledger[i], c) ==> db.ledger[i].amount >= 0) ==>
                  (db.customers[c].balance == sum <==>
                   forall i :: 0 <= i < |db.ledger| && Unbalanced(db.ledger[i], c) ==> db.ledger[i].amount == 0))
  {
    RunKeepsBooks(o, o, steps);
    var db := RunAll(o, steps);
    AmountsAreMovesPlusGap(db.ledger, c);
    if forall i :: 0 <= i < |db.ledger| && Unbalanced(db.ledger[i], c) ==> db.ledger[i].amount >= 0 {
      OneSignGap(db.ledger, c);
    }
  }

  // One campaign is enough: created with a positive budget, it leaves the sum off by twice that.
  lemma CreationBreaksSum(o: Db, r: Request)
    requires Opening(o) && r.Create? && r.amount > 0 && DoKeyed(o, r).outcome.Applied?
    ensures var db := RunAll(o, [Commit(r)]);
            && r.customer in o.customers && r.customer in db.customers
            && o.customers[r.customer].balance + Total(db.ledger, AllOf(r.customer)) == db.customers[r.customer].balance + 2 * r.amount
            && forall i :: 0 <= i < |db.ledger| ==> db.ledger[i].kind != FEE
  {
    SingleStep(o, r);
    assert Existing(o, r).None? && Refusal(o, r).None?;
    TotalAppend(o.ledger, EntryOf(r), AllOf(r.customer));
  }

  lemma SingleStep(db: Db, r: Request)
    ensures RunAll(db, [Commit(r)]) == Do(db, r).db
  {
    assert [Commit(r)][1..] == [];
  }

  // ---------------------------------------------------------------- uniqueness and replay

  ghost predicate UniqueRows(l: seq<Entry>) {
    && (forall i, j :: 0 <= i < j < |l| && l[i].key.Some? ==> l[i].key != l[j].key)
    && (forall i, j :: 0 <= i < j < |l| && l[i].kind == PAYMENT_TOPUP && l[j].kind == PAYMENT_TOPUP ==>
          l[i].intent != l[j].intent)
    && (forall i :: 0 <= i < |l| && l[i].kind == PAYMENT_TOPUP ==> l[i].intent.Some?)
  }

  // Appends of rows without a key and without a payment.
  ghost predicate AppendsPlain(l: seq<Entry>, m: seq<Entry>) {
    && l <= m
    && forall i :: |l| <= i < |m| ==> m[i].key.None? && m[i].intent.None? && m[i].kind in {RELEASE, FEE, RECONCILIATION_ADJUST}
  }

  // Appends of rows without a payment.
  ghost predicate AppendsUnpaid(l: seq<Entry>, m: seq<Entry>) {
    l <= m && forall i :: |l| <= i < |m| ==> m[i].intent.None? && m[i].kind != PAYMENT_TOPUP
  }

  lemma {:induction false} SuspendAppends(db: Db, customer: Id, overdraft: int, listed: seq<Id>)
    requires customer in db.customers
    ensures Suspend(db, customer, overdraft, listed).Some? ==>
              AppendsPlain(db.ledger, Suspend(db, customer, overdraft, listed).value.ledger)
    decreases |listed|
  {
    if listed != [] && db.customers[customer].balance + overdraft < 0 && listed[0] in db.campaigns {
      SuspendAppends(db, customer, overdraft, listed[1..]);
      SuspendAppends(PauseOne(db, customer, listed[0]), customer, overdraft, listed[1..]);
    }
  }

  // What a request does to the ledger: a keyed request adds its own entry or nothing, a transfer
  // its two entries or nothing, any other request only rows without a key.
  lemma LedgerGrowth(db: Db, r: Request)
    ensures Keyed(r) ==> Do(db, r).db.ledger == db.ledger || Do(db, r).db.ledger == db.ledger + [EntryOf(r)]
    ensures r.Transfer? ==>
              || Do(db, r).db.ledger == db.ledger
              || Do(db, r).db.ledger == db.ledger + [TransferRelease(r)] + [TransferFreeze(r)]
    ensures !Keyed(r) && !r.Transfer? ==> AppendsPlain(db.ledger, Do(db, r).db.ledger)
    ensures !Keyed(r) ==> AppendsUnpaid(db.ledger, Do(db, r).db.ledger)
    ensures db.ledger <= Do(db, r).db.ledger
  {
    match r
    case SetOverdraft(c, od, listed) => if c in db.customers { SuspendAppends(db, c, od, listed); }
    case Transfer(_, _, _, _, _) => TransferGrowth(db, r);
    case Finalize(c, h) => FinalizeGrowth(db, c, h);
    case Cancel(_) =>
    case Adjust(_, _, _) =>
    case Elsewhere(_, _) =>
    case _ => KeyedGrowth(db, r);
  }

  lemma KeyedGrowth(db: Db, r: Request)
    requires Keyed(r)
    ensures DoKeyed(db, r).db.ledger == db.ledger || DoKeyed(db, r).db.ledger == db.ledger + [EntryOf(r)]
  {
  }

  lemma ConcludeGrowth(db: Db, c: Id, refund: int, fee: int)
    requires c in db.campaigns
    ensures AppendsPlain(db.ledger, Conclude(db, c, refund, fee).db.ledger)
  {
  }

  lemma FinalizeGrowth(db: Db, c: Id, h: int)
    ensures AppendsPlain(db.ledger, DoFinalize(db, c, h).db.ledger)
  {
    if c in db.campaigns && db.campaigns[c].status == DRAINING {
      var fee := PercentHundredths(Reserve(db.campaigns[c]), h);
      ConcludeGrowth(db, c, Reserve(db.campaigns[c]) - fee, fee);
    }
  }

  lemma TransferGrowth(db: Db, r: Request)
    requires r.Transfer?
    ensures var l := DoTransfer(db, r).db.ledger;
            && (l == db.ledger || l == db.ledger + [TransferRelease(r)] + [TransferFreeze(r)])
            && AppendsUnpaid(db.ledger, l)
  {
  }

  // A row with a new key, and no top-up of a payment already topped up, keeps the rows unique.
  lemma AppendKeepsUnique(l: seq<Entry>, e: Entry)
    requires UniqueRows(l) && (e.key.Some? ==> FindKey(l, e.key.value).None?)
    requires e.kind == PAYMENT_TOPUP ==> e.intent.Some? && FindTopup(l, e.intent.value).None?
    ensures UniqueRows(l + [e])
  {
  }

  lemma {:induction false} PlainKeepsUnique(l: seq<Entry>, m: seq<Entry>)
    requires UniqueRows(l) && AppendsPlain(l, m)
    ensures UniqueRows(m)
    decreases |m|
  {
    if m != l {
      var n := |m| - 1;
      PlainKeepsUnique(l, m[..n]);
      AppendKeepsUnique(m[..n], m[n]);
      assert m == m[..n] + [m[n]];
    }
  }

  lemma TransferKeepsUnique(db: Db, r: Request)
    requires UniqueRows(db.ledger) && r.Transfer?
    ensures UniqueRows(DoTransfer(db, r).db.ledger)
  {
    TransferGrowth(db, r);
    if DoTransfer(db, r).db.ledger != db.ledger {
      var l := db.ledger + [TransferRelease(r)];
      AppendKeepsUnique(db.ledger, TransferRelease(r));
      assert l[..|l| - 1] == db.ledger && |r.key + ":release"| > |r.key|;
      AppendKeepsUnique(l, TransferFreeze(r));
    }
  }

  lemma KeyedKeepsUnique(db: Db, r: Request)
    requires UniqueRows(db.ledger) && Keyed(r)
    ensures UniqueRows(DoKeyed(db, r).db.ledger)
  {
    if DoKeyed(db, r).outcome.Applied? { AppendKeepsUnique(db.ledger, EntryOf(r)); }
  }

  lemma DoKeepsUnique(db: Db, r: Request)
    requires UniqueRows(db.ledger)
    ensures UniqueRows(Do(db, r).db.ledger)
  {
    if r.Transfer? {
      TransferKeepsUnique(db, r);
    } else if Keyed(r) {
      KeyedKeepsUnique(db, r);
    } else {
      LedgerGrowth(db, r);
      PlainKeepsUnique(db.ledger, Do(db, r).db.ledger);
    }
  }

  lemma {:induction false} RunKeepsUnique(db: Db, steps: seq<Step>)
    requires UniqueRows(db.ledger)
    ensures UniqueRows(RunAll(db, steps).ledger)
    decreases |steps|
  {
    if steps != [] {
      if steps[0].Commit? { DoKeepsUnique(db, steps[0].request); }
      RunKeepsUnique(Perform(db, steps[0]), steps[1..]);
    }
  }

  // At most one entry per idempotency key and one top-up per payment intent, after every run.
  lemma OneEntryPerKey(o: Db, steps: seq<Step>)
    requires Opening(o)
    ensures UniqueRows(RunAll(o, steps).ledger)
  {
    RunKeepsUnique(o, steps);
  }

  lemma {:induction false} LedgerOnlyGrows(db: Db, steps: seq<Step>)
    ensures db.ledger <= RunAll(db, steps).ledger
    decreases |steps|
  {
    if steps != [] {
      if steps[0].Commit? { LedgerGrowth(db, steps[0].request); }
      LedgerOnlyGrows(Perform(db, steps[0]), steps[1..]);
    }
  }

  lemma {:induction false} RunsCompose(db: Db, a: seq<Step>, b: seq<Step>)
    ensures RunAll(db, a + b) == RunAll(RunAll(db, a), b)
    decreases |a|
  {
    if a == [] {
      assert a + b == b;
    } else {
      RunsCompose(Perform(db, a[0]), a[1..], b);
      assert (a + b)[1..] == a[1..] + b;
    }
  }

  // A later request that repeats the key of an answered one, or credits a payment already credited.
  predicate Repeats(first: Request, again: Request)
    requires Keyed(first) && Keyed(again)
  {
    again.key == first.key || (first.Credit? && again.Credit? && again.intent == first.intent)
  }

  // An applied request is found by every request that repeats it.
  lemma AnsweredIsRecorded(db: Db, r: Request, again: Request)
    requires Keyed(r) && Keyed(again) && Repeats(r, again)
    requires Do(db, r).outcome.Applied?
    ensures Existing(Do(db, r).db, again).Some?
  {
    var d := Do(db, r).db;
    assert d.ledger[|db.ledger|] == EntryOf(r);
    assert d.ledger[|db.ledger|].key == Some(r.key);
  }

  lemma RecordedStays(db: Db, d: Db, r: Request)
    requires Keyed(r) && Existing(db, r).Some? && db.ledger <= d.ledger
    ensures Existing(d, r).Some?
  {
    var i := Existing(db, r).value;
    assert d.ledger[i] == db.ledger[i];
  }

  // Replay: once a request has been applied, every later request that repeats it can be removed
  // from any continuation without changing the final database.
  lemma ReplayChangesNothing(db: Db, r: Request, mid: seq<Step>, again: Request, rest: seq<Step>)
    requires Keyed(r) && Keyed(again) && Repeats(r, again)
    requires Do(db, r).outcome.Applied?
    ensures RunAll(db, [Commit(r)] + mid + [Commit(again)] + rest) == RunAll(db, [Commit(r)] + mid + rest)
  {
    var first := [Commit(r)];
    var d := Do(db, r).db;
    AnsweredIsRecorded(db, r, again);
    LedgerOnlyGrows(d, mid);
    var e := RunAll(d, mid);
    RecordedStays(d, e, again);
    assert Do(e, again).db == e;
    RunsCompose(db, first, mid);
    assert RunAll(db, first) == d by { assert first[1..] == []; }
    RunsCompose(db, first + mid, [Commit(again)]);
    assert RunAll(e, [Commit(again)]) == e by { assert [Commit(again)][1..] == []; }
    RunsCompose(db, first + mid + [Commit(again)], rest);
    RunsCompose(db, first + mid, rest);
  }

  // The steps of a run without the requests that find themselves already recorded.
  function WithoutReplays(db: Db, steps: seq<Step>): seq<Step>
    decreases |steps|
  {
    if steps == [] then []
    else
      var rest := WithoutReplays(Perform(db, steps[0]), steps[1..]);
      if steps[0].Commit? && Keyed(steps[0].request) && Existing(db, steps[0].request).Some? then rest
      else [steps[0]] + rest
  }

  lemma {:induction false} ReplaysAreSilent(db: Db, steps: seq<Step>)
    ensures RunAll(db, WithoutReplays(db, steps)) == RunAll(db, steps)
    decreases |steps|
  {
    if steps != [] {
      ReplaysAreSilent(Perform(db, steps[0]), steps[1..]);
    }
  }

  // ---------------------------------------------------------------- payment ceilings

  // What has been taken back of a payment: each way by itself stays within the top-up.
  ghost predicate IntentOk(db: Db, i: Id) {
    && 0 <= Refunded(db, i) <= Max0(TopupAmount(db, i))
    && 0 <= NetChargeback(db, i) <= Max0(TopupAmount(db, i))
  }

  // An entry that is not of this payment changes nothing about it.
  lemma ForeignEntry(l: seq<Entry>, e: Entry, i: Id)
    requires e.intent != Some(i)
    ensures forall k: Kind :: Total(l + [e], OfIntent(k, i)) == Total(l, OfIntent(k, i))
    ensures FindTopup(l + [e], i) == FindTopup(l, i)
  {
    assert (l + [e])[..|l|] == l;
    forall k: Kind ensures Total(l + [e], OfIntent(k, i)) == Total(l, OfIntent(k, i)) {
      TotalAppend(l, e, OfIntent(k, i));
    }
  }

  lemma {:induction false} PlainRowsForeign(l: seq<Entry>, m: seq<Entry>, i: Id)
    requires AppendsUnpaid(l, m)
    ensures forall k: Kind :: Total(m, OfIntent(k, i)) == Total(l, OfIntent(k, i))
    ensures FindTopup(m, i) == FindTopup(l, i)
    decreases |m|
  {
    if m != l {
      var n := |m| - 1;
      PlainRowsForeign(l, m[..n], i);
      ForeignEntry(m[..n], m[n], i);
      assert m == m[..n] + [m[n]];
    }
  }

  lemma OwnEntry(l: seq<Entry>, e: Entry, i: Id)
    requires e.intent == Some(i)
    ensures forall k: Kind :: Total(l + [e], OfIntent(k, i)) ==
              Total(l, OfIntent(k, i)) + (if k != e.kind then 0 else if k == PAYMENT_CHARGEBACK_REVERSAL then e.amount else Abs(e.amount))
    ensures FindTopup(l + [e], i) == if e.kind == PAYMENT_TOPUP then Some(|l|) else FindTopup(l, i)
  {
    assert (l + [e])[..|l|] == l;
    forall k: Kind ensures Total(l + [e], OfIntent(k, i)) ==
              Total(l, OfIntent(k, i)) + (if k != e.kind then 0 else if k == PAYMENT_CHARGEBACK_REVERSAL then e.amount else Abs(e.amount))
    {
      TotalAppend(l, e, OfIntent(k, i));
    }
  }

  // The combined amount, and whether a request takes a refund while a chargeback is open.
  function TakenBack(db: Db, i: Id): int { Refunded(db, i) + NetChargeback(db, i) }

  // Together they stay within the payment.
  predicate WithinJoint(db: Db, i: Id) { TakenBack(db, i) <= Max0(TopupAmount(db, i)) }

  predicate RefundsUnderDispute(db: Db, s: Step) {
    s.Commit? && s.request.Refund? && Do(db, s.request).outcome.Applied? && NetChargeback(db, s.request.intent) > 0
  }

  // A refund of this payment is accepted although refunds and the open chargeback leave no room
  // for it: the check it passes looks at the refunds only.
  predicate Overdraws(db: Db, s: Step, i: Id) {
    && s.Commit? && s.request.Refund? && s.request.intent == i && Do(db, s.request).outcome.Applied?
    && s.request.amount > TopupAmount(db, i) - Refunded(db, i) - NetChargeback(db, i)
  }

  // Nothing about a payment differs between two databases.
  ghost predicate SamePayment(db: Db, d: Db, i: Id) {
    && Refunded(d, i) == Refunded(db, i) && NetChargeback(d, i) == NetChargeback(db, i)
    && TopupAmount(d, i) == TopupAmount(db, i)
  }

  lemma UnpaidKeepsPayment(db: Db, d: Db, i: Id)
    requires AppendsUnpaid(db.ledger, d.ledger)
    ensures SamePayment(db, d, i)
  {
    PlainRowsForeign(db.ledger, d.ledger, i);
  }

  lemma ForeignKeepsPayment(db: Db, r: Request, i: Id)
    requires !(Keyed(r) && EntryOf(r).intent == Some(i))
    ensures SamePayment(db, Do(db, r).db, i)
  {
    var d := Do(db, r).db;
    LedgerGrowth(db, r);
    if !Keyed(r) {
      UnpaidKeepsPayment(db, d, i);
    } else if d.ledger != db.ledger {
      ForeignEntry(db.ledger, EntryOf(r), i);
    }
  }

  lemma DoKeepsIntent(db: Db, r: Request, i: Id)
    requires IntentOk(db, i)
    ensures IntentOk(Do(db, r).db, i)
    ensures WithinJoint(db, i) ==> (WithinJoint(Do(db, r).db, i) <==> !Overdraws(db, Commit(r), i))
    ensures Overdraws(db, Commit(r), i) ==> RefundsUnderDispute(db, Commit(r))
  {
    if !(Keyed(r) && EntryOf(r).intent == Some(i)) {
      ForeignKeepsPayment(db, r, i);
    } else if DoKeyed(db, r).outcome.Applied? {
      OwnKeepsIntent(db, r);
    }
  }

  // The state of a payment in three numbers, and what an accepted request makes of them.
  datatype Payment = Payment(refunded: int, net: int, topup: int)

  function PaymentOf(db: Db, i: Id): Payment { Payment(Refunded(db, i), NetChargeback(db, i), TopupAmount(db, i)) }

  function PaymentAfter(p: Payment, r: Request): Payment {
    match r
    case Credit(_, a, _, _) => p.(topup := a)
    case Refund(_, a, _, _) => p.(refunded := p.refunded + a)
    case Chargeback(_, a, _, _) => p.(net := p.net + a)
    case Reversal(_, a, _, _) => p.(net := p.net - a)
    case _ => p
  }

  predicate Accepts(p: Payment, r: Request) {
    match r
    case Credit(_, _, _, _) => p.topup == 0
    case Refund(_, a, _, _) => 0 < a && p.refunded + a <= p.topup
    case Chargeback(_, a, _, _) => 0 < a && p.refunded + p.net + a <= p.topup
    case Reversal(_, a, _, _) => 0 < a <= p.net
    case _ => true
  }

  lemma AcceptedFits(db: Db, r: Request)
    requires Keyed(r) && EntryOf(r).intent.Some? && Existing(db, r).None? && Refusal(db, r).None? && (r.Credit? || r.amount > 0)
    ensures Accepts(PaymentOf(db, EntryOf(r).intent.value), r)
  {
  }

  predicate PaymentOk(p: Payment) { 0 <= p.refunded <= Max0(p.topup) && 0 <= p.net <= Max0(p.topup) }

  lemma PaymentStep(p: Payment, r: Request)
    requires PaymentOk(p) && Accepts(p, r)
    ensures var q := PaymentAfter(p, r);
            && PaymentOk(q)
            && (p.refunded + p.net <= Max0(p.topup) ==>
                  (q.refunded + q.net <= Max0(q.topup) <==> !(r.Refund? && r.amount > p.topup - p.refunded - p.net)))
  {
  }

  // What a booked request changes in the amounts of its own payment.
  lemma {:induction false} OwnAmounts(db: Db, r: Request)
    requires Keyed(r) && EntryOf(r).intent.Some? && EntryOf(r).customer in db.customers && (r.Credit? || r.amount > 0)
    ensures var i, d := EntryOf(r).intent.value, Post(db, EntryOf(r));
            && Refunded(d, i) == Refunded(db, i) + (if r.Refund? then r.amount else 0)
            && ChargedBack(d, i) == ChargedBack(db, i) + (if r.Chargeback? then r.amount else 0)
            && Reversed(d, i) == Reversed(db, i) + (if r.Reversal? then r.amount else 0)
            && FindTopup(d.ledger, i) == (if r.Credit? then Some(|db.ledger|) else FindTopup(db.ledger, i))
            && TopupAmount(d, i) == (if r.Credit? then r.amount else TopupAmount(db, i))
  {
    OwnEntry(db.ledger, EntryOf(r), EntryOf(r).intent.value);
  }

  lemma {:induction false} PaymentMoves(db: Db, r: Request)
    requires Keyed(r) && EntryOf(r).intent.Some? && EntryOf(r).customer in db.customers && (r.Credit? || r.amount > 0)
    ensures PaymentOf(Post(db, EntryOf(r)), EntryOf(r).intent.value) == PaymentAfter(PaymentOf(db, EntryOf(r).intent.value), r)
  {
    OwnAmounts(db, r);
  }

  lemma {:induction false} OwnKeepsIntent(db: Db, r: Request)
    requires Keyed(r) && EntryOf(r).intent.Some? && IntentOk(db, EntryOf(r).intent.value)
    requires Existing(db, r).None? && Refusal(db, r).None?
    requires !r.Credit? ==> r.amount > 0
    ensures var i, d := EntryOf(r).intent.value, Post(db, EntryOf(r));
            && IntentOk(d, i)
            && (WithinJoint(db, i) ==>
                  (WithinJoint(d, i) <==> !(r.Refund? && r.amount > TopupAmount(db, i) - Refunded(db, i) - NetChargeback(db, i))))
  {
    var i := EntryOf(r).intent.value;
    PaymentMoves(db, r);
    AcceptedFits(db, r);
    PaymentStep(PaymentOf(db, i), r);
  }

  ghost predicate NoRefundUnderDispute(db: Db, steps: seq<Step>)
    decreases |steps|
  {
    steps == [] || (!RefundsUnderDispute(db, steps[0]) && NoRefundUnderDispute(Perform(db, steps[0]), steps[1..]))
  }

  lemma {:induction false} RunKeepsIntent(db: Db, steps: seq<Step>, i: Id)
    requires IntentOk(db, i)
    ensures IntentOk(RunAll(db, steps), i)
    ensures WithinJoint(db, i) && NoRefundUnderDispute(db, steps) ==> WithinJoint(RunAll(db, steps), i)
    decreases |steps|
  {
    if steps != [] {
      if steps[0].Commit? { DoKeepsIntent(db, steps[0].request, i); }
      RunKeepsIntent(Perform(db, steps[0]), steps[1..], i);
    }
  }

  // Ceilings of a payment over every run. Refunds and open chargebacks each stay within the
  // top-up, hence together within twice of it; together within it when no refund was accepted
  // while a chargeback was open.
  lemma PaymentCeilings(o: Db, steps: seq<Step>, i: Id)
    requires Opening(o)
    ensures var db := RunAll(o, steps);
            && 0 <= Refunded(db, i) <= Max0(TopupAmount(db, i))
            && 0 <= NetChargeback(db, i) <= Max0(TopupAmount(db, i))
            && TakenBack(db, i) <= 2 * Max0(TopupAmount(db, i))
            && (NoRefundUnderDispute(o, steps) ==> WithinJoint(db, i))
  {
    RunKeepsIntent(o, steps, i);
  }

  // The joint ceiling in every state of a run, and its refunds, each when it was taken.
  ghost predicate AlwaysWithinJoint(db: Db, steps: seq<Step>, i: Id)
    decreases |steps|
  {
    WithinJoint(db, i) && (steps == [] || AlwaysWithinJoint(Perform(db, steps[0]), steps[1..], i))
  }

  ghost predicate NeverOverdraws(db: Db, steps: seq<Step>, i: Id)
    decreases |steps|
  {
    steps == [] || (!Overdraws(db, steps[0], i) && NeverOverdraws(Perform(db, steps[0]), steps[1..], i))
  }

  lemma {:induction false} JointFromHereIff(db: Db, steps: seq<Step>, i: Id)
    requires IntentOk(db, i) && WithinJoint(db, i)
    ensures AlwaysWithinJoint(db, steps, i) <==> NeverOverdraws(db, steps, i)
    decreases |steps|
  {
    if steps != [] {
      var d := Perform(db, steps[0]);
      if steps[0].Commit? { DoKeepsIntent(db, steps[0].request, i); }
      if WithinJoint(d, i) { JointFromHereIff(d, steps[1..], i); }
    }
  }

  // Over every run, refunds and open chargebacks of a payment stay together within it at every
  // point if and only if each refund fitted, when it was accepted, in what both had left.
  lemma JointCeilingHoldsIff(o: Db, steps: seq<Step>, i: Id)
    requires Opening(o)
    ensures AlwaysWithinJoint(o, steps, i) <==> NeverOverdraws(o, steps, i)
  {
    JointFromHereIff(o, steps, i);
  }

  // A payment of `t` of which nothing is refunded and `net` is charged back, with the
  // balance to pay for one more withdrawal.
  ghost predicate PaidBack(db: Db, c: Id, t: int, i: Id, net: int) {
    && c in db.customers && db.customers[c].balance + db.customers[c].overdraft >= t
    && FindTopup(db.ledger, i).Some? && TopupAmount(db, i) == t && Refunded(db, i) == 0 && NetChargeback(db, i) == net
  }

  lemma FullWithdrawal(db: Db, r: Request, t: int, net: int)
    requires (r.Refund? || (r.Chargeback? && net == 0)) && r.amount == t > 0 && PaidBack(db, r.customer, t, r.intent, net)
    requires FindKey(db.ledger, r.key).None?
    ensures Do(db, r).db == Post(db, EntryOf(r))
    ensures TopupAmount(Do(db, r).db, r.intent) == t && TakenBack(Do(db, r).db, r.intent) == net + t
    ensures r.Chargeback? && db.customers[r.customer].balance + db.customers[r.customer].overdraft >= 2 * t ==>
              PaidBack(Do(db, r).db, r.customer, t, r.intent, t)
  {
    OwnEntry(db.ledger, EntryOf(r), r.intent);
  }

  lemma ThreeSteps(db: Db, a: Request, b: Request, c: Request)
    ensures RunAll(db, [Commit(a), Commit(b), Commit(c)]) == Do(Do(Do(db, a).db, b).db, c).db
  {
    assert [Commit(a), Commit(b), Commit(c)][1..] == [Commit(b), Commit(c)];
    assert [Commit(b), Commit(c)][1..] == [Commit(c)];
    assert [Commit(c)][1..] == [];
    var d := Do(Do(db, a).db, b).db;
    assert RunAll(d, [Commit(c)]) == Do(d, c).db;
    assert RunAll(Do(db, a).db, [Commit(b), Commit(c)]) == RunAll(d, [Commit(c)]);
  }

  lemma FirstCredit(o: Db, c: Id, t: int, k: Key, i: Id)
    requires Opening(o) && c in o.customers && t > 0 && o.customers[c].balance + o.customers[c].overdraft >= t
    ensures var d := Do(o, Credit(c, t, k, i)).db;
            && d.ledger == [EntryOf(Credit(c, t, k, i))] && PaidBack(d, c, t, i, 0)
            && d.customers[c].balance + d.customers[c].overdraft >= 2 * t
  {
    var r := Credit(c, t, k, i);
    assert Existing(o, r).None? && Refusal(o, r).None?;
    assert Do(o, r).db == Post(o, EntryOf(r));
    OwnEntry(o.ledger, EntryOf(r), i);
  }

  lemma TwoKeys(l: seq<Entry>, a: Entry, b: Entry, k: Key)
    requires l == [a] + [b] && a.key != Some(k) && b.key != Some(k)
    ensures FindKey(l, k).None?
  {
    assert l[..1] == [a] && l[..1][..0] == [];
  }

  // The doubled ceiling is attained: charge a payment back in full, then refund it in full.
  lemma JointCeilingAttained(o: Db, c: Id, t: int, i: Id, k: Key, k1: Key, k2: Key)
    requires Opening(o) && c in o.customers && t > 0 && o.customers[c].balance + o.customers[c].overdraft >= t
    requires k != k1 && k != k2 && k1 != k2
    ensures var db := RunAll(o, [Commit(Credit(c, t, k, i)), Commit(Chargeback(c, t, k1, i)), Commit(Refund(c, t, k2, i))]);
            TakenBack(db, i) == 2 * t && TopupAmount(db, i) == t
  {
    var r0, r1, r2 := Credit(c, t, k, i), Chargeback(c, t, k1, i), Refund(c, t, k2, i);
    FirstCredit(o, c, t, k, i);
    var d0 := Do(o, r0).db;
    FullWithdrawal(d0, r1, t, 0);
    var d1 := Do(d0, r1).db;
    TwoKeys(d1.ledger, EntryOf(r0), EntryOf(r1), k2);
    FullWithdrawal(d1, r2, t, t);
    ThreeSteps(o, r0, r1, r2);
  }

  // ---------------------------------------------------------------- finalisation

  function Finals(history: seq<Change>, campaign: Id): nat {
    if history == [] then 0
    else
      var last := history[|history| - 1];
      Finals(history[..|history| - 1], campaign) + (if last.campaign == campaign && last.after == DELETED then 1 else 0)
  }

  ghost predicate FinalOnce(db: Db) {
    forall c :: Finals(db.history, c) <= 1 && (Finals(db.history, c) == 1 ==> c in db.campaigns && db.campaigns[c].status == DELETED)
  }

  lemma StatusKeepsFinalOnce(db: Db, campaign: Id, status: Status)
    requires FinalOnce(db) && campaign in db.campaigns && db.campaigns[campaign].status != DELETED
    ensures FinalOnce(SetStatus(db, campaign, status))
  {
    var d := SetStatus(db, campaign, status);
    assert d.history[..|db.history|] == db.history;
  }

  lemma {:induction false} SuspendKeepsFinalOnce(db: Db, customer: Id, overdraft: int, listed: seq<Id>)
    requires FinalOnce(db) && customer in db.customers
    ensures Suspend(db, customer, overdraft, listed).Some? ==> FinalOnce(Suspend(db, customer, overdraft, listed).value)
    decreases |listed|
  {
    if listed != [] && db.customers[customer].balance + overdraft < 0 && listed[0] in db.campaigns {
      if db.campaigns[listed[0]].status == ACTIVE {
        StatusKeepsFinalOnce(db, listed[0], PAUSED);
        SuspendKeepsFinalOnce(PauseOne(db, customer, listed[0]), customer, overdraft, listed[1..]);
      } else {
        SuspendKeepsFinalOnce(db, customer, overdraft, listed[1..]);
      }
    }
  }

  // Finals depend on the history and on the statuses only.
  lemma SameFinals(db: Db, d: Db)
    requires FinalOnce(db) && d.history == db.history
    requires forall h :: h in db.campaigns ==> h in d.campaigns && d.campaigns[h].status == db.campaigns[h].status
    ensures FinalOnce(d)
  {
  }

  lemma ConcludeKeepsFinalOnce(db: Db, c: Id, refund: int, fee: int)
    requires FinalOnce(db) && c in db.campaigns && db.campaigns[c].status != DELETED
    ensures FinalOnce(Conclude(db, c, refund, fee).db)
  {
    if Conclude(db, c, refund, fee).outcome == Done {
      var settled := Settle(db, db.campaigns[c].customer, c, refund, fee);
      SameFinals(db, settled);
      StatusKeepsFinalOnce(settled, c, DELETED);
    }
  }

  lemma FinalizeKeepsFinalOnce(db: Db, c: Id, h: int)
    requires FinalOnce(db)
    ensures FinalOnce(DoFinalize(db, c, h).db)
  {
    if c in db.campaigns && db.campaigns[c].status == DRAINING {
      var fee := PercentHundredths(Reserve(db.campaigns[c]), h);
      ConcludeKeepsFinalOnce(db, c, Reserve(db.campaigns[c]) - fee, fee);
    }
  }

  lemma OverdraftKeepsFinalOnce(db: Db, c: Id, overdraft: int, listed: seq<Id>)
    requires FinalOnce(db)
    ensures FinalOnce(DoSetOverdraft(db, c, overdraft, listed).db)
  {
    if c in db.customers { SuspendKeepsFinalOnce(db, c, overdraft, listed); }
  }

  lemma KeyedKeepsFinalOnce(db: Db, r: Request)
    requires FinalOnce(db) && Keyed(r)
    ensures FinalOnce(DoKeyed(db, r).db)
  {
    if DoKeyed(db, r).outcome.Applied? {
      var posted, d := Post(db, EntryOf(r)), Booked(db, r);
      SameFinals(db, posted);
      if r.Create? {
        assert d.history[..|db.history|] == db.history;
      } else if r.Spend? {
        SameFinals(posted, d);
      }
    }
  }

  lemma TransferKeepsFinalOnce(db: Db, r: Request)
    requires FinalOnce(db) && r.Transfer?
    ensures FinalOnce(DoTransfer(db, r).db)
  {
    SameFinals(db, DoTransfer(db, r).db);
  }

  lemma AdjustKeepsFinalOnce(db: Db, r: Request)
    requires FinalOnce(db) && r.Adjust?
    ensures FinalOnce(DoAdjust(db, r).db)
  {
    SameFinals(db, DoAdjust(db, r).db);
  }

  lemma DoKeepsFinalOnce(db: Db, r: Request)
    requires FinalOnce(db)
    ensures FinalOnce(Do(db, r).db)
  {
    match r
    case Cancel(c) => if c in db.campaigns && db.campaigns[c].status != DELETED { StatusKeepsFinalOnce(db, c, DRAINING); }
    case Finalize(c, h) => FinalizeKeepsFinalOnce(db, c, h);
    case SetOverdraft(c, o, listed) => OverdraftKeepsFinalOnce(db, c, o, listed);
    case Transfer(_, _, _, _, _) => TransferKeepsFinalOnce(db, r);
    case Adjust(_, _, _) => AdjustKeepsFinalOnce(db, r);
    case Elsewhere(_, _) =>
    case _ => KeyedKeepsFinalOnce(db, r);
  }

  lemma {:induction false} RunKeepsFinalOnce(db: Db, steps: seq<Step>)
    requires FinalOnce(db)
    ensures FinalOnce(RunAll(db, steps))
    decreases |steps|
  {
    if steps != [] {
      if steps[0].Commit? { DoKeepsFinalOnce(db, steps[0].request); }
      RunKeepsFinalOnce(Perform(db, steps[0]), steps[1..]);
    }
  }

  // A campaign is finalised at most once over every run, whatever cancels, retries and
  // settlements interleave, and is deleted from then on.
  lemma FinalisedAtMostOnce(o: Db, steps: seq<Step>, c: Id)
    requires Opening(o)
    ensures var db := RunAll(o, steps);
            Finals(db.history, c) <= 1 && (Finals(db.history, c) == 1 ==> c in db.campaigns && db.campaigns[c].status == DELETED)
  {
    RunKeepsFinalOnce(o, steps);
  }

  // The fee on an amount at a rate in hundredths of a percent, rounded down.
  predicate IsFee(fee: int, amount: nat, hundredths: int) {
    if hundredths <= 0 then fee == 0 else 10000 * fee <= amount * hundredths < 10000 * (fee + 1)
  }

  lemma FeeRoundsDown(amount: nat, hundredths: int)
    ensures IsFee(PercentHundredths(amount, hundredths), amount, hundredths)
  {
    if amount > 0 && hundredths > 0 {
      var product := amount * hundredths;
      assert product >= 0;
      assert PercentHundredths(amount, hundredths) == product / 10000;
    }
  }

  lemma FeeWithinReserve(amount: nat, h: int)
    ensures PercentHundredths(amount, h) >= 0
    ensures h <= 10000 ==> PercentHundredths(amount, h) <= amount
  {
    if amount > 0 && h > 0 {
      assert amount * h >= 0;
      if h <= 10000 { assert amount * h <= amount * 10000; }
    }
  }

  // The split of what is left of a budget by a finalisation that commits: the customer gets the
  // refund, and the rows booked add up to it exactly when the fee does not exceed it.
  lemma FinalisationSplitsReserve(db: Db, campaign: Id, h: int) returns (fee: nat)
    requires campaign in db.campaigns && db.campaigns[campaign].status == DRAINING
    requires db.campaigns[campaign].customer in db.customers
    requires DoFinalize(db, campaign, h).outcome == Done
    ensures var c, d := db.campaigns[campaign], DoFinalize(db, campaign, h).db;
            var left := Max0(c.limit - c.spend);
            var booked := Total(d.ledger, AllOf(c.customer)) - Total(db.ledger, AllOf(c.customer));
            && IsFee(fee, left, h)
            && d.campaigns[campaign] == c.(status := DELETED)
            && d.customers[c.customer].balance == db.customers[c.customer].balance + Max0(left - fee)
            && booked == Max0(left - fee) + fee
            && (booked == left <==> fee <= left)
            && (h <= 10000 ==> booked == left)
  {
    fee := FinaliseConcludes(db, campaign, h);
    SplitOf(db, campaign, DoFinalize(db, campaign, h), Max0(db.campaigns[campaign].limit - db.campaigns[campaign].spend), fee);
  }

  lemma SplitOf(db: Db, campaign: Id, r: Result, left: nat, fee: nat)
    requires campaign in db.campaigns && db.campaigns[campaign].customer in db.customers
    requires r == Conclude(db, campaign, left - fee, fee) && r.outcome == Done
    ensures var c := db.campaigns[campaign];
            && campaign in r.db.campaigns && c.customer in r.db.customers
            && (var booked := Total(r.db.ledger, AllOf(c.customer)) - Total(db.ledger, AllOf(c.customer));
                && r.db.campaigns[campaign] == c.(status := DELETED)
                && r.db.customers[c.customer].balance == db.customers[c.customer].balance + Max0(left - fee)
                && booked == Max0(left - fee) + fee
                && (booked == left <==> fee <= left))
  {
    ConcludeSplits(db, campaign, left - fee, fee);
  }

  lemma FinaliseConcludes(db: Db, campaign: Id, h: int) returns (fee: nat)
    requires campaign in db.campaigns && db.campaigns[campaign].status == DRAINING
    ensures var left := Max0(db.campaigns[campaign].limit - db.campaigns[campaign].spend);
            && IsFee(fee, left, h) && (h <= 10000 ==> fee <= left)
            && DoFinalize(db, campaign, h) == Conclude(db, campaign, left - fee, fee)
  {
    var left := Max0(db.campaigns[campaign].limit - db.campaigns[campaign].spend);
    FeeRoundsDown(left, h);
    FeeWithinReserve(left, h);
    fee := PercentHundredths(left, h);
  }

  lemma ConcludeSplits(db: Db, campaign: Id, refund: int, fee: nat)
    requires campaign in db.campaigns && db.campaigns[campaign].customer in db.customers
    requires Conclude(db, campaign, refund, fee).outcome == Done
    ensures var c, d := db.campaigns[campaign], Conclude(db, campaign, refund, fee).db;
            && d.campaigns[campaign] == c.(status := DELETED)
            && d.customers[c.customer].balance == db.customers[c.customer].balance + Max0(refund)
            && Total(d.ledger, AllOf(c.customer)) == Total(db.ledger, AllOf(c.customer)) + Max0(refund) + fee
  {
    SplitBooks(db, db.campaigns[campaign].customer, campaign, refund, fee);
  }

  lemma SplitBooks(db: Db, customer: Id, campaign: Id, refund: int, fee: int)
    requires customer in db.customers && fee >= 0
    ensures var charged := Settle(db, customer, campaign, refund, fee);
            && charged.customers[customer].balance == db.customers[customer].balance + Max0(refund)
            && Total(charged.ledger, AllOf(customer)) == Total(db.ledger, AllOf(customer)) + Max0(refund) + fee
  {
    var released := Settle(db, customer, campaign, refund, 0);
    ReleaseBooks(db, customer, campaign, refund);
    if fee > 0 {
      assert Settle(db, customer, campaign, refund, fee) == Post(released, FeeEntry(customer, campaign, fee));
      TotalAppend(released.ledger, FeeEntry(customer, campaign, fee), AllOf(customer));
    }
  }

  lemma ReleaseBooks(db: Db, customer: Id, campaign: Id, refund: int)
    requires customer in db.customers
    ensures var released := Settle(db, customer, campaign, refund, 0);
            && released.customers[customer].balance == db.customers[customer].balance + Max0(refund)
            && Total(released.ledger, AllOf(customer)) == Total(db.ledger, AllOf(customer)) + Max0(refund)
  {
    TotalAppend(db.ledger, ReleaseEntry(customer, campaign, refund), AllOf(customer));
  }
}
