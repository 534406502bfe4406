/**
 What each request does to the database, in the request's own fields and the columns of the rows:
 exactly when it is applied, by how much a balance moves, which rows are added, and that nothing
 else changes.
 */
module LedgerEffects {
  import opened Common
  import opened Ledger
  import opened LedgerLaws

  predicate KeyFree(db: Db, k: Key) { forall i :: 0 <= i < |db.ledger| ==> db.ledger[i].key != Some(k) }

  predicate CanPay(db: Db, c: Id, amount: int) {
    c in db.customers && db.customers[c].balance + db.customers[c].overdraft >= amount
  }

  // One customer's balance moves by `delta`, these rows are added, and no other customer changes.
  ghost predicate Moved(db: Db, d: Db, c: Id, delta: int, rows: seq<Entry>) {
    && c in db.customers
    && d.customers == db.customers[c := Customer(db.customers[c].balance + delta, db.customers[c].overdraft)]
    && d.ledger == db.ledger + rows
  }

  ghost predicate CampaignsKept(db: Db, d: Db) {
    d.campaigns == db.campaigns && d.history == db.history && d.outbox == db.outbox
  }

  // The request changed nothing, or is applied: a balance moves, a row with the next id is added.
  ghost predicate BooksOneRow(db: Db, r: Request, delta: int, row: Entry) {
    var d := Do(db, r).db;
    if Do(db, r).outcome.Applied? then
      Do(db, r).outcome == Applied(|db.ledger|) && Moved(db, d, row.customer, delta, [row])
    else d == db
  }

  // ---------------------------------------------------------------- keyed requests

  lemma TopUpEffect(db: Db, c: Id, a: int, k: Key, fenced: bool)
    ensures var r := TopUp(c, a, k, fenced);
            && BooksOneRow(db, r, a, Entry(c, None, a, TOPUP, Some(k), None))
            && CampaignsKept(db, Do(db, r).db)
            && (Do(db, r).outcome.Applied? <==> !fenced && KeyFree(db, k) && CanPay(db, c, -a))
  {
  }

  lemma CreditEffect(db: Db, c: Id, a: int, k: Key, i: Id)
    ensures var r := Credit(c, a, k, i);
            && BooksOneRow(db, r, a, Entry(c, None, a, PAYMENT_TOPUP, Some(k), Some(i)))
            && CampaignsKept(db, Do(db, r).db)
            && (Do(db, r).outcome.Applied? <==>
                KeyFree(db, k) && CanPay(db, c, -a) && forall j :: 0 <= j < |db.ledger| ==> !IsTopupOf(db.ledger[j], i))
  {
  }

  predicate ToppedUp(db: Db, i: Id) { exists j :: 0 <= j < |db.ledger| && IsTopupOf(db.ledger[j], i) }

  lemma RefundEffect(db: Db, c: Id, a: int, k: Key, i: Id)
    ensures var r := Request.Refund(c, a, k, i);
            && BooksOneRow(db, r, -a, Entry(c, None, -a, PAYMENT_REFUND, Some(k), Some(i)))
            && CampaignsKept(db, Do(db, r).db)
  {
  }

  lemma RefundAppliedIff(db: Db, c: Id, a: int, k: Key, i: Id)
    ensures var r := Request.Refund(c, a, k, i);
            Do(db, r).outcome.Applied? <==>
                && a > 0 && KeyFree(db, k) && ToppedUp(db, i) && CanPay(db, c, a)
                && Refunded(db, i) + a <= TopupAmount(db, i)
  {
  }

  lemma ChargebackEffect(db: Db, c: Id, a: int, k: Key, i: Id)
    ensures var r := Chargeback(c, a, k, i);
            && BooksOneRow(db, r, -a, Entry(c, None, -a, PAYMENT_CHARGEBACK, Some(k), Some(i)))
            && CampaignsKept(db, Do(db, r).db)
  {
  }

  lemma ChargebackAppliedIff(db: Db, c: Id, a: int, k: Key, i: Id)
    ensures var r := Chargeback(c, a, k, i);
            Do(db, r).outcome.Applied? <==>
                && a > 0 && KeyFree(db, k) && ToppedUp(db, i) && CanPay(db, c, a)
                && Refunded(db, i) + ChargedBack(db, i) - Reversed(db, i) + a <= TopupAmount(db, i)
  {
  }

  lemma ReversalEffect(db: Db, c: Id, a: int, k: Key, i: Id)
    ensures var r := Reversal(c, a, k, i);
            && BooksOneRow(db, r, a, Entry(c, None, a, PAYMENT_CHARGEBACK_REVERSAL, Some(k), Some(i)))
            && CampaignsKept(db, Do(db, r).db)
            && (Do(db, r).outcome.Applied? <==>
                && 0 < a <= ChargedBack(db, i) - Reversed(db, i) && KeyFree(db, k) && ToppedUp(db, i) && CanPay(db, c, -a))
  {
  }

  // A new campaign takes its budget out of the balance, under the overdraft.
  lemma CreateEffect(db: Db, c: Id, a: int, k: Key, h: Id, scheduled: bool)
    ensures var r := Create(c, a, k, h, scheduled);
            var status := if scheduled then PAUSED else ACTIVE;
            && BooksOneRow(db, r, -a, Entry(c, Some(h), a, FREEZE, Some(k), None))
            && (Do(db, r).outcome.Applied? <==> KeyFree(db, k) && CanPay(db, c, a) && h !in db.campaigns)
            && (Do(db, r).outcome.Applied? ==>
                  && Do(db, r).db.campaigns == db.campaigns[h := Campaign(c, status, a, 0)]
                  && Do(db, r).db.history == db.history + [Change(h, None, status)]
                  && Do(db, r).db.outbox == db.outbox + [if scheduled then PauseCampaign(h) else StartCampaign(h)])
  {
  }

  // Settling spend is booked and added to the campaign; the balance was taken at creation.
  lemma SpendEffect(db: Db, c: Id, a: int, k: Key, h: Id)
    ensures var r := Spend(c, a, k, h);
            && BooksOneRow(db, r, 0, Entry(c, Some(h), -a, FEE, Some(k), None))
            && (Do(db, r).outcome.Applied? <==>
                && KeyFree(db, k) && h in db.campaigns && db.campaigns[h].customer == c
                && c in db.customers && db.customers[c].balance >= a)
            && (Do(db, r).outcome.Applied? ==>
                  && Do(db, r).db.campaigns == db.campaigns[h := db.campaigns[h].(spend := db.campaigns[h].spend + a)]
                  && Do(db, r).db.history == db.history && Do(db, r).db.outbox == db.outbox)
  {
  }

  // A request that was answered before gets the id of the row that answered it.
  lemma DuplicateNamesItsRow(db: Db, r: Request)
    requires Keyed(r) && Do(db, r).outcome.Duplicate?
    ensures var i := Do(db, r).outcome.id;
            && i < |db.ledger| && Do(db, r).db == db
            && (db.ledger[i].key == Some(r.key) || (r.Credit? && IsTopupOf(db.ledger[i], r.intent)))
  {
  }

  // A key that is taken answers every request but one that is refused for itself; a creation only
  // when the row under its key names a campaign.
  lemma TakenKeyAnswers(db: Db, r: Request) returns (i: nat)
    requires Keyed(r) && !KeyFree(db, r.key) && !(r.TopUp? && r.fenced)
    requires r.Refund? || r.Chargeback? || r.Reversal? ==> r.amount > 0
    requires r.Credit? ==> !ToppedUp(db, r.intent)
    ensures i < |db.ledger| && db.ledger[i].key == Some(r.key) && Do(db, r).db == db
    ensures Do(db, r).outcome == if r.Create? && db.ledger[i].campaign.None? then Failed(IncompleteIdempotency) else Duplicate(i)
  {
    i := FindKey(db.ledger, r.key).value;
  }

  // ---------------------------------------------------------------- transfers, adjustments, cancellation

  // A transfer leaves every balance, moves the amount from one limit to the other, and books it
  // out of one campaign and into the other.
  lemma TransferEffect(db: Db, c: Id, a: int, k: Key, worst: Id, best: Id)
    ensures var d := Do(db, Transfer(c, a, k, worst, best)).db;
            && d.history == db.history && d.outbox == db.outbox && d.customers == db.customers
            && (d != db ==>
                  && worst != best && worst in db.campaigns && best in db.campaigns
                  && d.campaigns.Keys == db.campaigns.Keys
                  && d.campaigns[worst] == db.campaigns[worst].(limit := db.campaigns[worst].limit - a)
                  && d.campaigns[best] == db.campaigns[best].(limit := db.campaigns[best].limit + a)
                  && (forall h :: h in db.campaigns && h != worst && h != best ==> d.campaigns[h] == db.campaigns[h])
                  && d.ledger == db.ledger + [Entry(c, Some(worst), a, RELEASE, Some(k + ":release"), None),
                                              Entry(c, Some(best), a, FREEZE, Some(k), None)])
  {
    var d := Do(db, Transfer(c, a, k, worst, best)).db;
    if d != db {
      assert d.customers == db.customers;
    }
  }

  // Exactly when a transfer moves anything, in a database that keeps the overdrafts.
  lemma TransferMovesIff(db: Db, c: Id, a: int, k: Key, worst: Id, best: Id)
    requires c in db.customers && CanPay(db, c, 0)
    ensures Do(db, Transfer(c, a, k, worst, best)).db != db <==>
              && worst != best && KeyFree(db, k) && KeyFree(db, k + ":release") && CanPay(db, c, -a)
              && worst in db.campaigns && best in db.campaigns
              && db.campaigns[worst].customer == c && db.campaigns[best].customer == c
              && db.campaigns[worst].status == ACTIVE && db.campaigns[best].status == ACTIVE
              && db.campaigns[worst].limit - a >= db.campaigns[worst].spend && db.campaigns[worst].limit > a
  {
    if Do(db, Transfer(c, a, k, worst, best)).db != db {
    } else {
    }
  }

  lemma AdjustEffect(db: Db, c: Id, a: int, h: Id)
    ensures var d := Do(db, Adjust(c, a, h)).db;
            && (c in db.customers && h in db.campaigns ==>
                  && Moved(db, d, c, 0, [Entry(c, Some(h), a, RECONCILIATION_ADJUST, None, None)])
                  && d.campaigns == db.campaigns[h := db.campaigns[h].(spend := db.campaigns[h].spend - a)]
                  && d.history == db.history && d.outbox == db.outbox)
            && (c !in db.customers || h !in db.campaigns ==> d == db && Do(db, Adjust(c, a, h)).outcome.Failed?)
  {
  }

  // Cancelling drains a campaign once, with one event, and touches neither balances nor rows.
  lemma CancelEffect(db: Db, h: Id)
    ensures var d := Do(db, Cancel(h)).db;
            && d.customers == db.customers && d.ledger == db.ledger
            && (if h in db.campaigns && db.campaigns[h].status != DELETED && db.campaigns[h].status != DRAINING then
                  && d.campaigns == db.campaigns[h := db.campaigns[h].(status := DRAINING)]
                  && d.history == db.history + [Change(h, Some(db.campaigns[h].status), DRAINING)]
                  && d.outbox == db.outbox + [CancelCampaign(h)]
                else d == db)
  {
  }
}
