/**
 The service object whose methods are the transactions, written statement by statement, and
 what lowering an overdraft does. Each method is proved to compute the transaction function of
 module Ledger, so every law of module LedgerLaws holds of runs of these methods.
 */
module LedgerService {
  import opened Common
  import opened Ledger

  // ---------------------------------------------------------------- lowering an overdraft

  // What is left of the budgets of these campaigns, and the rows that return it.
  function ReserveSum(campaigns: map<Id, Campaign>, ids: seq<Id>): nat
    requires forall p :: p in ids ==> p in campaigns
  {
    if ids == [] then 0 else Max0(campaigns[ids[0]].limit - campaigns[ids[0]].spend) + ReserveSum(campaigns, ids[1..])
  }

  function Releases(customer: Id, campaigns: map<Id, Campaign>, ids: seq<Id>): seq<Entry>
    requires forall p :: p in ids ==> p in campaigns
  {
    if ids == [] then []
    else
      var reserve := Max0(campaigns[ids[0]].limit - campaigns[ids[0]].spend);
      (if reserve > 0 then [ReleaseEntry(customer, ids[0], reserve)] else []) + Releases(customer, campaigns, ids[1..])
  }

  ghost predicate SameBudgets(a: map<Id, Campaign>, b: map<Id, Campaign>) {
    a.Keys == b.Keys && forall p :: p in a ==> a[p].limit == b[p].limit && a[p].spend == b[p].spend
  }

  lemma {:induction false} SameReserves(customer: Id, a: map<Id, Campaign>, b: map<Id, Campaign>, ids: seq<Id>)
    requires SameBudgets(a, b) && forall p :: p in ids ==> p in a
    ensures ReserveSum(a, ids) == ReserveSum(b, ids) && Releases(customer, a, ids) == Releases(customer, b, ids)
  {
    if ids != [] { SameReserves(customer, a, b, ids[1..]); }
  }

  function PauseEvents(ids: seq<Id>): seq<Event> {
    if ids == [] then [] else [PauseCampaign(ids[0])] + PauseEvents(ids[1..])
  }

  function PauseChanges(ids: seq<Id>): seq<Change> {
    if ids == [] then [] else [Change(ids[0], Some(ACTIVE), PAUSED)] + PauseChanges(ids[1..])
  }

  // Exactly the listed, active campaigns in `paused` changed, each with one event and one change.
  ghost predicate SuspendedRows(db: Db, d: Db, listed: seq<Id>, paused: seq<Id>) {
    && Distinct(paused)
    && (forall p :: p in paused ==> p in listed && p in db.campaigns && db.campaigns[p].status == ACTIVE)
    && d.campaigns == (map h | h in db.campaigns :: if h in paused then db.campaigns[h].(status := PAUSED) else db.campaigns[h])
    && d.outbox == db.outbox + PauseEvents(paused)
    && d.history == db.history + PauseChanges(paused)
  }

  // The customer got back exactly the reserves of those campaigns, one RELEASE row each, and
  // each was paused only while the available limit was still negative.
  ghost predicate SuspendedMoney(db: Db, d: Db, customer: Id, overdraft: int, paused: seq<Id>) {
    && customer in db.customers
    && (forall p :: p in paused ==> p in db.campaigns)
    && (var c := db.customers[customer];
        d.customers == db.customers[customer := c.(balance := c.balance + ReserveSum(db.campaigns, paused))])
    && d.ledger == db.ledger + Releases(customer, db.campaigns, paused)
    && (forall k :: 0 <= k < |paused| ==>
          db.customers[customer].balance + overdraft + ReserveSum(db.campaigns, paused[..k]) < 0)
  }

  lemma RowsCons(db: Db, mid: Db, d: Db, customer: Id, listed: seq<Id>, rest: seq<Id>)
    requires customer in db.customers && listed != [] && listed[0] in db.campaigns && db.campaigns[listed[0]].status == ACTIVE
    requires mid == PauseOne(db, customer, listed[0]) && SuspendedRows(mid, d, listed[1..], rest)
    ensures SuspendedRows(db, d, listed, [listed[0]] + rest)
  {
    var paused := [listed[0]] + rest;
    assert paused[1..] == rest && listed[0] !in rest;
    assert db.outbox + PauseEvents(paused) == db.outbox + [PauseCampaign(listed[0])] + PauseEvents(rest);
    assert db.history + PauseChanges(paused) == db.history + [Change(listed[0], Some(ACTIVE), PAUSED)] + PauseChanges(rest);
  }

  // The money side of pausing one campaign.
  ghost predicate PausedMoney(db: Db, mid: Db, customer: Id, h: Id)
    requires customer in db.customers && h in db.campaigns
  {
    var c, reserve := db.customers[customer], Max0(db.campaigns[h].limit - db.campaigns[h].spend);
    && SameBudgets(mid.campaigns, db.campaigns)
    && mid.customers == db.customers[customer := c.(balance := c.balance + reserve)]
    && mid.ledger == db.ledger + (if reserve > 0 then [ReleaseEntry(customer, h, reserve)] else [])
  }

  lemma PauseMoves(db: Db, customer: Id, h: Id)
    requires customer in db.customers && h in db.campaigns
    ensures PausedMoney(db, PauseOne(db, customer, h), customer, h)
  {
  }

  lemma MoneyCons(db: Db, mid: Db, d: Db, customer: Id, overdraft: int, h: Id, rest: seq<Id>)
    requires customer in db.customers && h in db.campaigns && db.customers[customer].balance + overdraft < 0
    requires PausedMoney(db, mid, customer, h) && SuspendedMoney(mid, d, customer, overdraft, rest)
    ensures SuspendedMoney(db, d, customer, overdraft, [h] + rest)
  {
    var paused := [h] + rest;
    SameReserves(customer, mid.campaigns, db.campaigns, rest);
    assert paused[1..] == rest;
    forall k | 0 <= k < |paused|
      ensures db.customers[customer].balance + overdraft + ReserveSum(db.campaigns, paused[..k]) < 0
    {
      if k > 0 {
        PrefixSum(customer, mid.campaigns, db.campaigns, h, rest, k);
        assert mid.customers[customer].balance + overdraft + ReserveSum(mid.campaigns, rest[..k - 1]) < 0;
      }
    }
  }

  lemma PrefixSum(customer: Id, a: map<Id, Campaign>, b: map<Id, Campaign>, h: Id, rest: seq<Id>, k: nat)
    requires SameBudgets(a, b) && h in b && (forall p :: p in rest ==> p in a) && 0 < k <= |rest| + 1
    ensures ReserveSum(b, ([h] + rest)[..k]) == Max0(b[h].limit - b[h].spend) + ReserveSum(a, rest[..k - 1])
  {
    assert ([h] + rest)[..k][1..] == rest[..k - 1];
    SameReserves(customer, a, b, rest[..k - 1]);
  }

  // Lowering an overdraft: exactly the campaigns it pauses, what they return, and the state it
  // leaves, for every list of campaigns the query may have returned.
  lemma {:induction false} SuspendEffect(db: Db, customer: Id, overdraft: int, listed: seq<Id>) returns (paused: seq<Id>)
    requires customer in db.customers && Suspend(db, customer, overdraft, listed).Some?
    ensures var d := Suspend(db, customer, overdraft, listed).value;
            && SuspendedRows(db, d, listed, paused) && SuspendedMoney(db, d, customer, overdraft, paused)
            && (d.customers[customer].balance + overdraft >= 0
                || forall h :: h in listed ==> h in d.campaigns && d.campaigns[h].status != ACTIVE)
    decreases |listed|
  {
    if listed == [] || db.customers[customer].balance + overdraft >= 0 {
      paused := [];
    } else if db.campaigns[listed[0]].status != ACTIVE {
      paused := SuspendEffect(db, customer, overdraft, listed[1..]);
      assert forall h :: h in listed ==> h == listed[0] || h in listed[1..];
    } else {
      var mid := PauseOne(db, customer, listed[0]);
      var rest := SuspendEffect(mid, customer, overdraft, listed[1..]);
      paused := [listed[0]] + rest;
      var d := Suspend(db, customer, overdraft, listed).value;
      RowsCons(db, mid, d, customer, listed, rest);
      PauseMoves(db, customer, listed[0]);
      MoneyCons(db, mid, d, customer, overdraft, listed[0], rest);
      assert forall h :: h in listed ==> h == listed[0] || h in listed[1..];
    }
  }

  // The campaigns an overdraft change could suspend: the ACTIVE ones it lists, each once, up to
  // the first whose row is missing.
  function Suspendable(campaigns: map<Id, Campaign>, listed: seq<Id>): (ids: seq<Id>)
    ensures forall p :: p in ids ==> p in campaigns
  {
    if listed == [] || listed[0] !in campaigns then []
    else
      var rest := Suspendable(campaigns, listed[1..]);
      if campaigns[listed[0]].status == ACTIVE && listed[0] !in rest then [listed[0]] + rest else rest
  }

  lemma {:induction false} SuspendableAre(campaigns: map<Id, Campaign>, listed: seq<Id>)
    ensures Distinct(Suspendable(campaigns, listed))
    ensures forall p :: p in Suspendable(campaigns, listed) ==> p in listed && campaigns[p].status == ACTIVE
    ensures (forall p :: p in listed ==> p in campaigns) ==>
              forall p :: p in listed && campaigns[p].status == ACTIVE ==> p in Suspendable(campaigns, listed)
  {
    if listed != [] && listed[0] in campaigns { SuspendableAre(campaigns, listed[1..]); }
  }

  // Pausing one campaign takes it, and nothing else, out of what is left to suspend.
  lemma {:induction false} PausedDropsOut(campaigns: map<Id, Campaign>, h: Id, listed: seq<Id>)
    requires h in campaigns && campaigns[h].status == ACTIVE
    ensures var after := campaigns[h := campaigns[h].(status := PAUSED)];
            var s, t := Suspendable(campaigns, listed), Suspendable(after, listed);
            && (forall p :: p in t <==> p in s && p != h)
            && ReserveSum(campaigns, s) == ReserveSum(after, t) + (if h in s then Max0(campaigns[h].limit - campaigns[h].spend) else 0)
  {
    if listed != [] && listed[0] in campaigns { PausedDropsOut(campaigns, h, listed[1..]); }
  }

  lemma {:induction false} SuspendCoversIff(db: Db, customer: Id, overdraft: int, listed: seq<Id>)
    requires customer in db.customers
    ensures var r := Suspend(db, customer, overdraft, listed);
            && ((r.Some? && r.value.customers[customer].balance + overdraft >= 0) <==>
                db.customers[customer].balance + overdraft + ReserveSum(db.campaigns, Suspendable(db.campaigns, listed)) >= 0)
            && ((forall p :: p in listed ==> p in db.campaigns) ==> r.Some?)
            && (r.Some? && r.value.customers[customer].balance + overdraft < 0 ==> forall p :: p in listed ==> p in db.campaigns)
    decreases |listed|
  {
    if listed == [] || db.customers[customer].balance + overdraft >= 0 || listed[0] !in db.campaigns {
    } else if db.campaigns[listed[0]].status != ACTIVE {
      SuspendCoversIff(db, customer, overdraft, listed[1..]);
      assert forall p :: p in listed <==> p == listed[0] || p in listed[1..];
    } else {
      var h, mid := listed[0], PauseOne(db, customer, listed[0]);
      SuspendCoversIff(mid, customer, overdraft, listed[1..]);
      PausedDropsOut(db.campaigns, h, listed[1..]);
      assert mid.campaigns == db.campaigns[h := db.campaigns[h].(status := PAUSED)];
      assert forall p :: p in listed <==> p == listed[0] || p in listed[1..];
    }
  }

  // Exactly when lowering an overdraft commits, from the state before it: the balance, the new
  // overdraft and the reserves of all it may suspend come to zero or more. Otherwise nothing
  // changes, and the error tells whether a listed row was missing.
  lemma OverdraftCommitsIffCovered(db: Db, customer: Id, overdraft: int, listed: seq<Id>)
    requires customer in db.customers && overdraft < db.customers[customer].overdraft
    ensures var r := DoSetOverdraft(db, customer, overdraft, listed);
            && (r.outcome == Done <==>
                db.customers[customer].balance + overdraft + ReserveSum(db.campaigns, Suspendable(db.campaigns, listed)) >= 0)
            && (r.outcome == Done ==>
                  r.db.customers[customer].overdraft == overdraft && r.db.customers[customer].balance + overdraft >= 0)
            && (r.outcome != Done ==>
                  && r.db == db
                  && r.outcome == Failed(if forall p :: p in listed ==> p in db.campaigns then BalanceCheckFailed else CampaignNotFound))
  {
    SuspendCoversIff(db, customer, overdraft, listed);
  }

  // Suspension and finalisation both return limit - spend: a campaign that is suspended, then
  // cancelled and finalised without a fee, has its reserve returned twice.
  lemma ReserveReturnedTwice(db: Db, customer: Id, campaign: Id, overdraft: int)
    requires customer in db.customers && campaign in db.campaigns && db.campaigns[campaign].customer == customer
    requires db.campaigns[campaign].status == ACTIVE && db.campaigns[campaign].limit > db.campaigns[campaign].spend
    requires db.customers[customer].balance + db.customers[customer].overdraft >= 0
    requires overdraft < db.customers[customer].overdraft
    requires 0 <= db.customers[customer].balance + overdraft + db.campaigns[campaign].limit - db.campaigns[campaign].spend
    requires db.customers[customer].balance + overdraft < 0
    ensures var c, left := db.customers[customer], db.campaigns[campaign].limit - db.campaigns[campaign].spend;
            var d := Do(Do(Do(db, SetOverdraft(customer, overdraft, [campaign])).db, Cancel(campaign)).db, Finalize(campaign, 0)).db;
            && d.campaigns[campaign].status == DELETED && d.customers[customer].balance == c.balance + 2 * left
  {
    var paused := PauseOne(db, customer, campaign);
    assert [campaign][1..] == [];
    assert Suspend(db, customer, overdraft, [campaign]) == Some(paused);
    var d1 := Do(db, SetOverdraft(customer, overdraft, [campaign])).db;
    var d2 := Do(d1, Cancel(campaign)).db;
    assert d2.campaigns[campaign].status == DRAINING;
  }

  lemma FinaliseIs(db: Db, campaign: Id, feeHundredths: int, remaining: nat, fee: int)
    requires campaign in db.campaigns && db.campaigns[campaign].status == DRAINING
    requires remaining == Max0(db.campaigns[campaign].limit - db.campaigns[campaign].spend)
    requires fee == PercentHundredths(remaining, feeHundredths)
    ensures Do(db, Finalize(campaign, feeHundredths)) == Conclude(db, campaign, remaining - fee, fee)
  {
  }

  lemma OtherKey(l: seq<Entry>, e: Entry, k: Key)
    requires FindKey(l, k).None? && e.key == Some(k + ":release")
    ensures FindKey(l + [e], k).None?
  {
    assert (l + [e])[..|l|] == l && |k + ":release"| > |k|;
  }

  // ---------------------------------------------------------------- the object

  class Service {
    var customers: map<Id, Customer>
    var campaigns: map<Id, Campaign>
    var ledger: seq<Entry>
    var outbox: seq<Event>
    var history: seq<Change>

    ghost function State(): Db
      reads this
    {
      Db(customers, campaigns, ledger, outbox, history)
    }

    // The column check every committed row satisfies.
    ghost predicate Valid()
      reads this
    {
      forall c :: c in customers ==> customers[c].balance + customers[c].overdraft >= 0
    }

    // UPDATE customers SET balance = balance + delta, under the column check.
    method UpdateBalance(customer: Id, delta: int) returns (ok: bool)
      modifies this`customers
      ensures ok == BalanceAllowed(old(State()), customer, delta)
      ensures State() == if ok then AddBalance(old(State()), customer, delta) else old(State())
      ensures old(Valid()) ==> Valid()
    {
      if customer !in customers { return false; }
      var c := customers[customer];
      if c.balance + delta + c.overdraft < 0 { return false; }
      customers := customers[customer := c.(balance := c.balance + delta)];
      return true;
    }

    // INSERT INTO balance_ledger; no unique index may refuse the row.
    method InsertEntry(e: Entry) returns (id: nat)
      requires e.key.Some? ==> FindKey(ledger, e.key.value).None?
      requires e.kind == PAYMENT_TOPUP && e.intent.Some? ==> FindTopup(ledger, e.intent.value).None?
      modifies this`ledger
      ensures id == old(|ledger|) && ledger == old(ledger) + [e]
    {
      id := |ledger|;
      ledger := ledger + [e];
    }

    // The balance change of an entry, then the entry.
    method Book(e: Entry) returns (r: Outcome)
      requires Valid() && MovesBalance(e)
      requires e.key.Some? ==> FindKey(ledger, e.key.value).None?
      requires e.kind == PAYMENT_TOPUP && e.intent.Some? ==> FindTopup(ledger, e.intent.value).None?
      modifies this`customers, this`ledger
      ensures Valid()
      ensures r == if e.customer !in old(customers) then Failed(CustomerNotFound)
                   else if !BalanceAllowed(old(State()), e.customer, Effect(e)) then Failed(BalanceCheckFailed)
                   else Applied(|old(ledger)|)
      ensures State() == if r.Applied? then Post(old(State()), e) else old(State())
    {
      var ok := UpdateBalance(e.customer, Effect(e));
      if !ok { return Failed(if e.customer in customers then BalanceCheckFailed else CustomerNotFound); }
      var id := InsertEntry(e);
      return Applied(id);
    }

    method ChangeStatus(campaign: Id, status: Status)
      requires campaign in campaigns
      modifies this`campaigns, this`history
      ensures State() == SetStatus(old(State()), campaign, status)
    {
      var c := campaigns[campaign];
      campaigns := campaigns[campaign := c.(status := status)];
      history := history + [Change(campaign, Some(c.status), status)];
    }

    method TopUpBalance(customer: Id, amount: int, key: Key, fenced: bool) returns (r: Outcome)
      requires Valid()
      modifies this
      ensures Valid()
      ensures Result(State(), r) == Do(old(State()), TopUp(customer, amount, key, fenced))
    {
      if fenced { return Failed(FencingLost); }
      var existing := FindKey(ledger, key);
      if existing.Some? { return Duplicate(existing.value); }
      r := Book(Entry(customer, None, amount, TOPUP, Some(key), None));
    }

    method ApplyPaymentCredit(customer: Id, amount: int, key: Key, intent: Id) returns (r: Outcome)
      requires Valid()
      modifies this
      ensures Valid()
      ensures Result(State(), r) == Do(old(State()), Credit(customer, amount, key, intent))
    {
      var topup := FindTopup(ledger, intent);
      if topup.Some? { return Duplicate(topup.value); }
      var existing := FindKey(ledger, key);
      if existing.Some? { return Duplicate(existing.value); }
      r := Book(Entry(customer, None, amount, PAYMENT_TOPUP, Some(key), Some(intent)));
    }

    method ApplyPaymentRefund(customer: Id, amount: int, key: Key, intent: Id) returns (r: Outcome)
      requires Valid()
      modifies this
      ensures Valid()
      ensures Result(State(), r) == Do(old(State()), Refund(customer, amount, key, intent))
    {
      if amount <= 0 { return Failed(InvalidAmount); }
      var existing := FindKey(ledger, key);
      if existing.Some? { return Duplicate(existing.value); }
      var topup := FindTopup(ledger, intent);
      if topup.None? { return Failed(PaymentTopupNotFound); }
      var refundedSoFar := Total(ledger, OfIntent(PAYMENT_REFUND, intent));
      if refundedSoFar + amount > ledger[topup.value].amount { return Failed(RefundExceedsTopup); }
      r := Book(Entry(customer, None, -amount, PAYMENT_REFUND, Some(key), Some(intent)));
    }

    method ApplyChargebackMovement(customer: Id, amount: int, key: Key, intent: Id, isDebit: bool) returns (r: Outcome)
      requires Valid()
      modifies this
      ensures Valid()
      ensures Result(State(), r) == Do(old(State()),
                if isDebit then Chargeback(customer, amount, key, intent) else Reversal(customer, amount, key, intent))
    {
      if amount <= 0 { return Failed(InvalidAmount); }
      var existing := FindKey(ledger, key);
      if existing.Some? { return Duplicate(existing.value); }
      var topup := FindTopup(ledger, intent);
      if topup.None? { return Failed(PaymentTopupNotFound); }
      var refundedSoFar := Total(ledger, OfIntent(PAYMENT_REFUND, intent));
      var chargebackSoFar := Total(ledger, OfIntent(PAYMENT_CHARGEBACK, intent));
      var reversalSoFar := Total(ledger, OfIntent(PAYMENT_CHARGEBACK_REVERSAL, intent));
      var netChargeback := chargebackSoFar - reversalSoFar;
      if isDebit {
        if refundedSoFar + netChargeback + amount > ledger[topup.value].amount { return Failed(ChargebackExceedsTopup); }
      } else if amount > netChargeback {
        return Failed(ReversalExceedsWithdrawn);
      }
      var delta := if isDebit then -amount else amount;
      var kind := if isDebit then PAYMENT_CHARGEBACK else PAYMENT_CHARGEBACK_REVERSAL;
      r := Book(Entry(customer, None, delta, kind, Some(key), Some(intent)));
    }

    // `campaign` is the id generated for it; `scheduled`: its schedule has not begun or is over.
    method CreateCampaign(customer: Id, limit: int, key: Key, campaign: Id, scheduled: bool) returns (r: Outcome)
      requires Valid()
      modifies this
      ensures Valid()
      ensures Result(State(), r) == Do(old(State()), Create(customer, limit, key, campaign, scheduled))
    {
      var existing := FindKey(ledger, key);
      if existing.Some? {
        return if ledger[existing.value].campaign.Some? then Duplicate(existing.value) else Failed(IncompleteIdempotency);
      }
      if customer !in customers { return Failed(CustomerNotFound); }
      if customers[customer].balance + customers[customer].overdraft < limit { return Failed(InsufficientBalance); }
      if campaign in campaigns { return Failed(CampaignExists); }
      r := Book(Entry(customer, Some(campaign), limit, FREEZE, Some(key), None));
      InsertCampaign(customer, campaign, limit, scheduled);
    }

    method InsertCampaign(customer: Id, campaign: Id, limit: int, scheduled: bool)
      modifies this`campaigns, this`history, this`outbox
      ensures State() == OpenCampaign(old(State()), customer, campaign, limit, scheduled)
    {
      var status := if scheduled then PAUSED else ACTIVE;
      campaigns := campaigns[campaign := Campaign(customer, status, limit, 0)];
      history := history + [Change(campaign, None, status)];
      outbox := outbox + [if scheduled then PauseCampaign(campaign) else StartCampaign(campaign)];
    }

    // Settles spend of a campaign; the customer is the one its row joins.
    method FlushSpend(customer: Id, amount: int, key: Key, campaign: Id) returns (r: Outcome)
      requires Valid()
      modifies this
      ensures Valid()
      ensures Result(State(), r) == Do(old(State()), Spend(customer, amount, key, campaign))
    {
      var existing := FindKey(ledger, key);
      if existing.Some? { return Duplicate(existing.value); }
      if campaign !in campaigns || campaigns[campaign].customer != customer { return Failed(CampaignNotFound); }
      if customer !in customers { return Failed(CustomerNotFound); }
      if customers[customer].balance < amount { return Failed(InsufficientBalance); }
      var id := InsertEntry(Entry(customer, Some(campaign), -amount, FEE, Some(key), None));
      campaigns := campaigns[campaign := campaigns[campaign].(spend := campaigns[campaign].spend + amount)];
      return Applied(id);
    }

    // One transfer of the autoscaler, from a campaign with a low click rate to one with a high one.
    method TransferBudget(customer: Id, amount: int, key: Key, worst: Id, best: Id) returns (r: Outcome)
      requires Valid()
      modifies this
      ensures Valid()
      ensures Result(State(), r) == Do(old(State()), Transfer(customer, amount, key, worst, best))
    {
      if worst == best || FindKey(ledger, key).Some? { return Done; }
      if worst !in campaigns || best !in campaigns { return Failed(CampaignNotFound); }
      var w, b := campaigns[worst], campaigns[best];
      if w.customer != customer || b.customer != customer || w.status != ACTIVE || b.status != ACTIVE { return Done; }
      if w.limit - amount < w.spend || w.limit - amount <= 0 { return Done; }
      r := MoveThroughBalance(Transfer(customer, amount, key, worst, best));
    }

    method MoveThroughBalance(t: Request) returns (r: Outcome)
      requires Valid() && t.Transfer? && t.worst in campaigns && t.best in campaigns && t.worst != t.best
      requires FindKey(ledger, t.key).None?
      modifies this
      ensures Valid()
      ensures Result(State(), r) == MoveBudget(old(State()), t)
    {
      if FindKey(ledger, t.key + ":release").Some? {
        if t.customer !in customers { return Failed(CustomerNotFound); }
        var c := customers[t.customer];
        return Failed(if c.balance + t.amount + c.overdraft < 0 then BalanceCheckFailed else KeyTaken);
      }
      r := Book(TransferRelease(t));
      if !r.Applied? { return r; }
      OtherKey(old(ledger), TransferRelease(t), t.key);
      r := Book(TransferFreeze(t));
      assert r.Applied?;
      ShiftBudgets(t);
      return Done;
    }

    method ShiftBudgets(t: Request)
      requires t.Transfer? && t.worst in campaigns && t.best in campaigns && t.worst != t.best
      modifies this`campaigns
      ensures State() == ShiftLimits(old(State()), t)
    {
      campaigns := campaigns[t.worst := campaigns[t.worst].(limit := campaigns[t.worst].limit - t.amount)];
      campaigns := campaigns[t.best := campaigns[t.best].(limit := campaigns[t.best].limit + t.amount)];
    }

    method ApplyReconciliationAdjust(customer: Id, amount: int, campaign: Id) returns (r: Outcome)
      requires Valid()
      modifies this
      ensures Valid()
      ensures Result(State(), r) == Do(old(State()), Adjust(customer, amount, campaign))
    {
      if customer !in customers { return Failed(CustomerNotFound); }
      if campaign !in campaigns { return Failed(CampaignNotFound); }
      var _ := InsertEntry(Entry(customer, Some(campaign), amount, RECONCILIATION_ADJUST, None, None));
      campaigns := campaigns[campaign := campaigns[campaign].(spend := campaigns[campaign].spend - amount)];
      return Done;
    }

    method CancelCampaign(campaign: Id) returns (r: Outcome)
      requires Valid()
      modifies this
      ensures Valid()
      ensures Result(State(), r) == Do(old(State()), Cancel(campaign))
    {
      if campaign !in campaigns { return Failed(CampaignNotFound); }
      if campaigns[campaign].status == DELETED || campaigns[campaign].status == DRAINING { return Done; }
      ChangeStatus(campaign, DRAINING);
      outbox := outbox + [Event.CancelCampaign(campaign)];
      return Done;
    }

    method FinalizeDrainingCampaign(campaign: Id, feeHundredths: int) returns (r: Outcome)
      requires Valid()
      modifies this
      ensures Valid()
      ensures Result(State(), r) == Do(old(State()), Finalize(campaign, feeHundredths))
    {
      if campaign !in campaigns { return Failed(CampaignNotFound); }
      var camp := campaigns[campaign];
      if camp.status != DRAINING { return Done; }
      var remaining := camp.limit - camp.spend;
      if remaining < 0 { remaining := 0; }
      var fee := PercentHundredths(remaining, feeHundredths);
      FinaliseIs(State(), campaign, feeHundredths, remaining, fee);
      r := ConcludeCampaign(campaign, remaining - fee, fee);
    }

    method ConcludeCampaign(campaign: Id, refund: int, fee: int) returns (r: Outcome)
      requires Valid() && campaign in campaigns
      modifies this
      ensures Valid()
      ensures Result(State(), r) == Conclude(old(State()), campaign, refund, fee)
    {
      var customer := campaigns[campaign].customer;
      if customer !in customers && (refund > 0 || fee > 0) { return Failed(CustomerNotFound); }
      var ok := BookSettlement(customer, campaign, refund, fee);
      if !ok { return Failed(BalanceCheckFailed); }
      ChangeStatus(campaign, DELETED);
      return Done;
    }

    method BookSettlement(customer: Id, campaign: Id, refund: int, fee: int) returns (ok: bool)
      requires Valid() && (refund > 0 || fee > 0 ==> customer in customers)
      modifies this`customers, this`ledger
      ensures Valid() && ok == (refund > 0 ==> BalanceAllowed(old(State()), customer, refund))
      ensures State() == if ok then Settle(old(State()), customer, campaign, refund, fee) else old(State())
    {
      if refund > 0 {
        ok := UpdateBalance(customer, refund);
        if !ok { return; }
        var _ := InsertEntry(ReleaseEntry(customer, campaign, refund));
      }
      if fee > 0 {
        var _ := InsertEntry(FeeEntry(customer, campaign, fee));
      }
      ok := true;
    }

    // `listed` is what the listing query returned; a listed row is read again under its lock.
    method UpdateOverdraft(customer: Id, newOverdraft: int, listed: seq<Id>) returns (r: Outcome)
      requires Valid()
      modifies this
      ensures Valid()
      ensures Result(State(), r) == Do(old(State()), SetOverdraft(customer, newOverdraft, listed))
    {
      if customer !in customers { return Failed(CustomerNotFound); }
      if newOverdraft == customers[customer].overdraft { return Done; }
      var saved := (customers, campaigns, ledger, outbox, history);
      if newOverdraft < customers[customer].overdraft {
        var found := SuspendCampaigns(customer, newOverdraft, listed);
        if !found {
          customers, campaigns, ledger, outbox, history := saved.0, saved.1, saved.2, saved.3, saved.4;
          return Failed(CampaignNotFound);
        }
      }
      if customers[customer].balance + newOverdraft < 0 {
        customers, campaigns, ledger, outbox, history := saved.0, saved.1, saved.2, saved.3, saved.4;
        return Failed(BalanceCheckFailed);
      }
      customers := customers[customer := customers[customer].(overdraft := newOverdraft)];
      return Done;
    }

    method SuspendCampaigns(customer: Id, newOverdraft: int, listed: seq<Id>) returns (found: bool)
      requires Valid() && customer in customers
      modifies this
      ensures Valid()
      ensures found == Suspend(old(State()), customer, newOverdraft, listed).Some?
      ensures found ==> State() == Suspend(old(State()), customer, newOverdraft, listed).value
    {
      var availableLimit := customers[customer].balance + newOverdraft;
      var i := 0;
      while i < |listed|
        invariant 0 <= i <= |listed| && Valid() && customer in customers
        invariant availableLimit == customers[customer].balance + newOverdraft
        invariant Suspend(State(), customer, newOverdraft, listed[i..]) == Suspend(old(State()), customer, newOverdraft, listed)
      {
        if availableLimit >= 0 { break; }
        var id := listed[i];
        assert listed[i..][1..] == listed[i + 1..];
        if id !in campaigns { return false; }
        if campaigns[id].status == ACTIVE {
          var returned := PauseOneCampaign(customer, id);
          availableLimit := availableLimit + returned;
        }
        i := i + 1;
      }
      return true;
    }

    method PauseOneCampaign(customer: Id, campaign: Id) returns (remaining: nat)
      requires Valid() && customer in customers && campaign in campaigns
      modifies this
      ensures Valid() && State() == PauseOne(old(State()), customer, campaign)
      ensures remaining == Max0(old(campaigns)[campaign].limit - old(campaigns)[campaign].spend)
    {
      var locked := campaigns[campaign];
      ChangeStatus(campaign, PAUSED);
      remaining := if locked.limit - locked.spend < 0 then 0 else locked.limit - locked.spend;
      if remaining > 0 {
        var ok := UpdateBalance(customer, remaining);
        assert ok;
        var _ := InsertEntry(ReleaseEntry(customer, campaign, remaining));
      }
      outbox := outbox + [PauseCampaign(campaign)];
    }
  }
}
