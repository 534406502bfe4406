/**
 What a campaign costs its customer, in its limit and its spend: what finalisation and suspension
 return, what the requests of a run say the balance must be, and that a campaign which is created,
 settled, cancelled and finalised without a fee costs exactly its spend.
 */
module CampaignCost {
  import opened Common
  import opened Ledger
  import opened LedgerLaws
  import opened LedgerEffects
  import LedgerService
  import ReserveLaws

  // ---------------------------------------------------------------- finalisation and suspension

  // A finalisation that commits splits what is left between the customer and the fee: the balance
  // rises by the refund, one RELEASE row carries it and one FEE row the fee, each only when positive.
  lemma FinaliseEffect(db: Db, h: Id, rate: int) returns (refund: int, fee: nat)
    requires h in db.campaigns && db.campaigns[h].status == DRAINING && Do(db, Finalize(h, rate)).outcome == Done
    ensures var c, d := db.campaigns[h], Do(db, Finalize(h, rate)).db;
            && refund + fee == Max0(c.limit - c.spend) && IsFee(fee, Max0(c.limit - c.spend), rate)
            && (rate <= 10000 ==> refund >= 0)
            && d.ledger == db.ledger
                 + (if refund > 0 then [Entry(c.customer, Some(h), refund, RELEASE, None, None)] else [])
                 + (if fee > 0 then [Entry(c.customer, Some(h), fee, FEE, None, None)] else [])
            && (if refund > 0 then Moved(db, d, c.customer, refund, d.ledger[|db.ledger|..]) else d.customers == db.customers)
            && d.campaigns == db.campaigns[h := c.(status := DELETED)]
            && d.history == db.history + [Change(h, Some(DRAINING), DELETED)] && d.outbox == db.outbox
  {
    fee := FinaliseConcludes(db, h, rate);
    refund := Max0(db.campaigns[h].limit - db.campaigns[h].spend) - fee;
    ConcludeEffect(db, h, refund, fee);
  }

  lemma ConcludeEffect(db: Db, h: Id, refund: int, fee: nat)
    requires h in db.campaigns && db.campaigns[h].status == DRAINING && Conclude(db, h, refund, fee).outcome == Done
    ensures var c, d := db.campaigns[h], Conclude(db, h, refund, fee).db;
            && d.ledger == db.ledger
                 + (if refund > 0 then [Entry(c.customer, Some(h), refund, RELEASE, None, None)] else [])
                 + (if fee > 0 then [Entry(c.customer, Some(h), fee, FEE, None, None)] else [])
            && (if refund > 0 then Moved(db, d, c.customer, refund, d.ledger[|db.ledger|..]) else d.customers == db.customers)
            && d.campaigns == db.campaigns[h := c.(status := DELETED)]
            && d.history == db.history + [Change(h, Some(DRAINING), DELETED)] && d.outbox == db.outbox
  {
    var d := Conclude(db, h, refund, fee).db;
    assert d.ledger == db.ledger + d.ledger[|db.ledger|..];
  }

  // Exactly when it commits: nothing is left of the budget, or its customer is known and the refund
  // keeps the overdraft, as it does for every customer that kept it before.
  lemma FinaliseCommitsIff(db: Db, h: Id, rate: int) returns (refund: int, fee: nat)
    requires h in db.campaigns && db.campaigns[h].status == DRAINING
    ensures var c := db.campaigns[h];
            && refund + fee == Max0(c.limit - c.spend) && IsFee(fee, Max0(c.limit - c.spend), rate)
            && (Do(db, Finalize(h, rate)).outcome == Done <==>
                c.limit <= c.spend || (c.customer in db.customers && (refund > 0 ==> CanPay(db, c.customer, -refund))))
            && (Do(db, Finalize(h, rate)).outcome != Done ==> Do(db, Finalize(h, rate)).db == db)
  {
    fee := FinaliseConcludes(db, h, rate);
    refund := Max0(db.campaigns[h].limit - db.campaigns[h].spend) - fee;
    if db.campaigns[h].limit <= db.campaigns[h].spend { NoFeeOnNothing(fee, rate); }
  }

  lemma NoFeeOnNothing(fee: nat, rate: int)
    requires IsFee(fee, 0, rate)
    ensures fee == 0
  {
  }

  // A campaign that is not draining is left alone.
  lemma FinaliseWaits(db: Db, h: Id, rate: int)
    requires h in db.campaigns && db.campaigns[h].status != DRAINING
    ensures Do(db, Finalize(h, rate)) == Result(db, Done)
  {
  }

  // Lowering an overdraft returns to the customer, for each campaign it pauses, what is left of it;
  // nobody else's balance moves.
  lemma SuspensionReturns(db: Db, customer: Id, overdraft: int, listed: seq<Id>) returns (paused: seq<Id>)
    requires customer in db.customers && overdraft < db.customers[customer].overdraft
    requires Do(db, SetOverdraft(customer, overdraft, listed)).outcome == Done
    ensures var d := Do(db, SetOverdraft(customer, overdraft, listed)).db;
            && LedgerService.SuspendedRows(db, d, listed, paused)
            && d.customers == db.customers[customer :=
                 Customer(db.customers[customer].balance + LedgerService.ReserveSum(db.campaigns, paused), overdraft)]
            && d.ledger == db.ledger + LedgerService.Releases(customer, db.campaigns, paused)
  {
    paused := LedgerService.SuspendEffect(db, customer, overdraft, listed);
    var d, e := Suspend(db, customer, overdraft, listed).value, Do(db, SetOverdraft(customer, overdraft, listed)).db;
    assert e == d.(customers := d.customers[customer := d.customers[customer].(overdraft := overdraft)]);
    SameRows(db, d, e, listed, paused);
    MoneyKept(db, d, e, customer, overdraft, paused);
  }

  // The suspended campaigns do not depend on the customers.
  lemma SameRows(db: Db, d: Db, e: Db, listed: seq<Id>, paused: seq<Id>)
    requires LedgerService.SuspendedRows(db, d, listed, paused)
    requires e.campaigns == d.campaigns && e.outbox == d.outbox && e.history == d.history
    ensures LedgerService.SuspendedRows(db, e, listed, paused)
  {
  }

  lemma MoneyKept(db: Db, d: Db, e: Db, customer: Id, overdraft: int, paused: seq<Id>)
    requires LedgerService.SuspendedMoney(db, d, customer, overdraft, paused) && customer in d.customers
    requires e == d.(customers := d.customers[customer := d.customers[customer].(overdraft := overdraft)])
    ensures e.customers == db.customers[customer :=
              Customer(db.customers[customer].balance + LedgerService.ReserveSum(db.campaigns, paused), overdraft)]
    ensures e.ledger == db.ledger + LedgerService.Releases(customer, db.campaigns, paused)
  {
  }

  lemma {:induction false} ReleasesAreReleases(customer: Id, campaigns: map<Id, Campaign>, ids: seq<Id>)
    requires forall p :: p in ids ==> p in campaigns
    ensures forall e :: e in LedgerService.Releases(customer, campaigns, ids) ==> e.key.None? && e.kind == RELEASE
  {
    if ids != [] { ReleasesAreReleases(customer, campaigns, ids[1..]); }
  }

  // ---------------------------------------------------------------- limit and spend in the ledger

  // What the rows say of a campaign's limit: budget frozen, less what transfers released.
  function Frozen(h: Id): Entry -> int {
    (e: Entry) => if e.campaign != Some(h) then 0 else if e.kind == FREEZE then e.amount
                  else if e.kind == RELEASE && e.key.Some? then -e.amount else 0
  }

  // What they say of its spend: settled under a key, with a negative amount, less adjustments.
  function Charged(h: Id): Entry -> int {
    (e: Entry) => if e.campaign == Some(h) && ((e.kind == FEE && e.key.Some?) || e.kind == RECONCILIATION_ADJUST)
                  then -e.amount else 0
  }

  function Limit(c: Campaign): int { c.limit }
  function Spent(c: Campaign): int { c.spend }

  // A column of the campaign, zero before it is created.
  function Column(db: Db, h: Id, f: Campaign -> int): int { if h in db.campaigns then f(db.campaigns[h]) else 0 }

  // By how much an update of other code changes a column.
  function Edit(db: Db, r: Request, h: Id, f: Campaign -> int): int {
    if r.Elsewhere? && r.campaign == h && Do(db, r).outcome == Done then f(r.update) - Column(db, h, f) else 0
  }

  ghost function EditedOver(db: Db, steps: seq<Step>, h: Id, f: Campaign -> int): int
    decreases |steps|
  {
    if steps == [] then 0
    else (if steps[0].Commit? then Edit(db, steps[0].request, h, f) else 0) + EditedOver(Perform(db, steps[0]), steps[1..], h, f)
  }

  // The limit and the spend moved by what the new rows say and by the edit.
  ghost predicate Follows(db: Db, d: Db, h: Id, limitEdit: int, spendEdit: int) {
    && Column(d, h, Limit) - Column(db, h, Limit) == Total(d.ledger, Frozen(h)) - Total(db.ledger, Frozen(h)) + limitEdit
    && Column(d, h, Spent) - Column(db, h, Spent) == Total(d.ledger, Charged(h)) - Total(db.ledger, Charged(h)) + spendEdit
  }

  lemma RowFollows(l: seq<Entry>, e: Entry, h: Id)
    ensures Total(l + [e], Frozen(h)) == Total(l, Frozen(h)) + Frozen(h)(e)
    ensures Total(l + [e], Charged(h)) == Total(l, Charged(h)) + Charged(h)(e)
  {
    TotalAppend(l, e, Frozen(h));
    TotalAppend(l, e, Charged(h));
  }

  // One row, and a campaign that moved by what it says.
  lemma OneRowFollows(db: Db, d: Db, e: Entry, h: Id)
    requires d.ledger == db.ledger + [e]
    requires Column(d, h, Limit) - Column(db, h, Limit) == Frozen(h)(e)
    requires Column(d, h, Spent) - Column(db, h, Spent) == Charged(h)(e)
    ensures Follows(db, d, h, 0, 0)
  {
    RowFollows(db.ledger, e, h);
  }

  lemma CreateFollows(db: Db, r: Request, h: Id)
    requires r.Create?
    ensures Follows(db, Do(db, r).db, h, 0, 0)
  {
    CreateEffect(db, r.customer, r.amount, r.key, r.campaign, r.scheduled);
    if Do(db, r).outcome.Applied? {
      OneRowFollows(db, Do(db, r).db, Entry(r.customer, Some(r.campaign), r.amount, FREEZE, Some(r.key), None), h);
    }
  }

  lemma SpendFollows(db: Db, r: Request, h: Id)
    requires r.Spend?
    ensures Follows(db, Do(db, r).db, h, 0, 0)
  {
    SpendEffect(db, r.customer, r.amount, r.key, r.campaign);
    if Do(db, r).outcome.Applied? {
      OneRowFollows(db, Do(db, r).db, Entry(r.customer, Some(r.campaign), -r.amount, FEE, Some(r.key), None), h);
    }
  }

  lemma PaymentFollows(db: Db, r: Request, h: Id)
    requires Keyed(r) && !r.Create? && !r.Spend?
    ensures Follows(db, DoKeyed(db, r).db, h, 0, 0)
  {
    if DoKeyed(db, r).outcome.Applied? {
      assert EntryOf(r).campaign.None?;
      OneRowFollows(db, Post(db, EntryOf(r)), EntryOf(r), h);
    }
  }

  lemma TransferFollows(db: Db, r: Request, h: Id)
    requires r.Transfer?
    ensures Follows(db, Do(db, r).db, h, 0, 0)
  {
    TransferEffect(db, r.customer, r.amount, r.key, r.worst, r.best);
    if Do(db, r).db != db {
      var l := db.ledger + [TransferRelease(r)];
      RowFollows(db.ledger, TransferRelease(r), h);
      RowFollows(l, TransferFreeze(r), h);
      assert l + [TransferFreeze(r)] == Do(db, r).db.ledger;
    }
  }

  // Rows without a key that are no adjustments say nothing of either.
  lemma {:induction false} PlainFollows(l: seq<Entry>, m: seq<Entry>, h: Id)
    requires l <= m && forall i :: |l| <= i < |m| ==> m[i].key.None? && m[i].kind in {RELEASE, FEE}
    ensures Total(m, Frozen(h)) == Total(l, Frozen(h)) && Total(m, Charged(h)) == Total(l, Charged(h))
    decreases |m|
  {
    if m != l {
      var n := |m| - 1;
      PlainFollows(l, m[..n], h);
      RowFollows(m[..n], m[n], h);
      assert m == m[..n] + [m[n]];
    }
  }

  lemma FinaliseRows(db: Db, r: Request, h: Id)
    requires r.Finalize? && ReserveLaws.Finalises(db, r, r.campaign)
    ensures Total(Do(db, r).db.ledger, Frozen(h)) == Total(db.ledger, Frozen(h))
    ensures Total(Do(db, r).db.ledger, Charged(h)) == Total(db.ledger, Charged(h))
    ensures Do(db, r).db.campaigns == db.campaigns[r.campaign := db.campaigns[r.campaign].(status := DELETED)]
  {
    var refund, fee := FinaliseEffect(db, r.campaign, r.feeHundredths);
    PlainFollows(db.ledger, Do(db, r).db.ledger, h);
  }

  lemma FinaliseFollows(db: Db, r: Request, h: Id)
    requires r.Finalize?
    ensures Follows(db, Do(db, r).db, h, 0, 0)
  {
    if ReserveLaws.Finalises(db, r, r.campaign) { FinaliseRows(db, r, h); }
  }

  lemma OverdraftFollows(db: Db, r: Request, h: Id)
    requires r.SetOverdraft?
    ensures Follows(db, Do(db, r).db, h, 0, 0)
  {
    if r.customer in db.customers && Do(db, r).outcome == Done && r.overdraft < db.customers[r.customer].overdraft {
      var paused := SuspensionReturns(db, r.customer, r.overdraft, r.listed);
      ReleasesAreReleases(r.customer, db.campaigns, paused);
      var l, m := db.ledger, Do(db, r).db.ledger;
      assert forall i :: |l| <= i < |m| ==> m[i] in LedgerService.Releases(r.customer, db.campaigns, paused);
      PlainFollows(l, m, h);
    }
  }

  lemma AdjustFollows(db: Db, r: Request, h: Id)
    requires r.Adjust?
    ensures Follows(db, Do(db, r).db, h, 0, 0)
  {
    AdjustEffect(db, r.customer, r.amount, r.campaign);
    if r.customer in db.customers && r.campaign in db.campaigns {
      OneRowFollows(db, Do(db, r).db, Entry(r.customer, Some(r.campaign), r.amount, RECONCILIATION_ADJUST, None, None), h);
    }
  }

  lemma DoFollows(db: Db, r: Request, h: Id)
    ensures Follows(db, Do(db, r).db, h, Edit(db, r, h, Limit), Edit(db, r, h, Spent))
  {
    match r
    case Transfer(_, _, _, _, _) => TransferFollows(db, r, h);
    case Adjust(_, _, _) => AdjustFollows(db, r, h);
    case Cancel(_) =>
    case Finalize(_, _) => FinaliseFollows(db, r, h);
    case SetOverdraft(_, _, _) => OverdraftFollows(db, r, h);
    case Elsewhere(_, _) =>
    case Create(_, _, _, _, _) => CreateFollows(db, r, h);
    case Spend(_, _, _, _) => SpendFollows(db, r, h);
    case _ => PaymentFollows(db, r, h);
  }

  lemma {:induction false} RunFollows(db: Db, steps: seq<Step>, h: Id)
    ensures Follows(db, RunAll(db, steps), h, EditedOver(db, steps, h, Limit), EditedOver(db, steps, h, Spent))
    decreases |steps|
  {
    if steps != [] {
      if steps[0].Commit? { DoFollows(db, steps[0].request, h); }
      RunFollows(Perform(db, steps[0]), steps[1..], h);
    }
  }

  // Over every run a campaign's limit is its opening limit plus its FREEZE rows, less what transfers
  // released of it, and its spend the opening spend plus what was settled, less the adjustments;
  // but for edits by other code.
  lemma LimitAndSpendFollowTheRows(o: Db, steps: seq<Step>, h: Id)
    requires Opening(o)
    ensures var db := RunAll(o, steps);
            && Column(db, h, Limit) == Column(o, h, Limit) + Total(db.ledger, Frozen(h)) + EditedOver(o, steps, h, Limit)
            && Column(db, h, Spent) == Column(o, h, Spent) + Total(db.ledger, Charged(h)) + EditedOver(o, steps, h, Spent)
  {
    RunFollows(o, steps, h);
  }

  // ---------------------------------------------------------------- what a campaign costs

  // What a campaign's rows take from the balance, and return to it.
  function NetOf(h: Id): Entry -> int {
    (e: Entry) => if e.campaign != Some(h) then 0 else if e.kind == FREEZE then -e.amount
                  else if e.kind == RELEASE then e.amount else 0
  }

  lemma {:induction false} NetSplits(l: seq<Entry>, h: Id)
    ensures Total(l, NetOf(h)) == Total(l, ReserveLaws.ReleasesOf(h)) - Total(l, Frozen(h))
  {
    if l != [] { NetSplits(l[..|l| - 1], h); }
  }

  // What a campaign's rows come to after its finalisation.
  lemma NetAfter(db: Db, r: Request, h: Id) returns (fee: nat)
    requires ReserveLaws.Finalises(db, r, h)
    ensures IsFee(fee, ReserveLaws.LeftOf(db.campaigns[h]), r.feeHundredths)
    ensures Total(Do(db, r).db.ledger, NetOf(h))
         == ReserveLaws.Released(db, h) + Max0(ReserveLaws.LeftOf(db.campaigns[h]) - fee) - Total(db.ledger, Frozen(h))
  {
    fee := ReserveLaws.Fee(db, r, h);
    FeeRoundsDown(Reserve(db.campaigns[h]), r.feeHundredths);
    ReserveLaws.DoReleases(db, r, h);
    FinaliseRows(db, r, h);
    NetSplits(Do(db, r).db.ledger, h);
  }

  // Before it, the campaign's unkeyed RELEASE rows are those of suspensions.
  lemma ReleasedBefore(o: Db, steps: seq<Step>, r: Request, h: Id)
    requires Opening(o) && ReserveLaws.Finalises(RunAll(o, steps), r, h)
    ensures ReserveLaws.Released(RunAll(o, steps), h) == ReserveLaws.SuspendedOver(o, steps, h)
    ensures ReserveLaws.SuspendedOver(o, steps, h) == 0 <==> !ReserveLaws.SuspendedWithReserve(o, steps, h)
  {
    FinalisedAtMostOnce(o, steps, h);
    ReserveLaws.RunReleases(o, steps, h);
  }

  // After any run in which a campaign is created, whatever else happens, its finalisation leaves
  // its rows at minus its limit, plus what suspensions returned, plus what is left of the limit
  // less the fee. So without a fee, a suspension that returned something or an edit of its limit,
  // the campaign has cost its spend, and never more than its limit.
  lemma FinalisedCampaignCosts(o: Db, steps: seq<Step>, h: Id, rate: int) returns (fee: nat)
    requires Opening(o) && h !in o.campaigns
    requires ReserveLaws.Finalises(RunAll(o, steps), Finalize(h, rate), h)
    ensures var db := RunAll(o, steps);
            var c, d := db.campaigns[h], Do(db, Finalize(h, rate)).db;
            && IsFee(fee, Max0(c.limit - c.spend), rate)
            && Total(d.ledger, NetOf(h)) == Max0(Max0(c.limit - c.spend) - fee) - c.limit
                 + ReserveLaws.SuspendedOver(o, steps, h) + EditedOver(o, steps, h, Limit)
            && (fee == 0 && !ReserveLaws.SuspendedWithReserve(o, steps, h) && EditedOver(o, steps, h, Limit) == 0 ==>
                  Total(d.ledger, NetOf(h)) == -(if c.spend <= c.limit then c.spend else c.limit))
  {
    var db, r := RunAll(o, steps), Finalize(h, rate);
    ReleasedBefore(o, steps, r, h);
    LimitAndSpendFollowTheRows(o, steps, h);
    fee := NetAfter(db, r, h);
    CostsMin(db.campaigns[h].limit, db.campaigns[h].spend);
  }

  lemma CostsMin(limit: int, spend: int)
    ensures Max0(Max0(limit - spend)) - limit == -(if spend <= limit then spend else limit)
  {
  }

  // Rows that name a campaign are of these kinds.
  ghost predicate CampaignKinds(l: seq<Entry>) {
    forall i :: 0 <= i < |l| && l[i].campaign.Some? ==> l[i].kind in {FREEZE, RELEASE, FEE, RECONCILIATION_ADJUST}
  }

  lemma {:induction false} RunKeepsKinds(db: Db, steps: seq<Step>)
    requires CampaignKinds(db.ledger)
    ensures CampaignKinds(RunAll(db, steps).ledger)
    decreases |steps|
  {
    if steps != [] {
      if steps[0].Commit? { LedgerGrowth(db, steps[0].request); }
      RunKeepsKinds(Perform(db, steps[0]), steps[1..]);
    }
  }

  // All the customer has in the ledger are the rows of this campaign.
  ghost predicate OnlyCampaign(l: seq<Entry>, c: Id, h: Id) {
    forall i :: 0 <= i < |l| ==> (l[i].customer == c <==> l[i].campaign == Some(h))
  }

  lemma {:induction false} MovesAreNet(l: seq<Entry>, c: Id, h: Id)
    requires CampaignKinds(l) && OnlyCampaign(l, c, h)
    ensures Total(l, Moves(c)) == Total(l, NetOf(h))
  {
    if l != [] {
      var n := |l| - 1;
      assert forall i :: 0 <= i < n ==> l[..n][i] == l[i];
      MovesAreNet(l[..n], c, h);
      assert Moves(c)(l[n]) == NetOf(h)(l[n]);
    }
  }

  lemma FinaliseRowsAreOwn(db: Db, r: Request, c: Id, h: Id)
    requires ReserveLaws.Finalises(db, r, h) && db.campaigns[h].customer == c && OnlyCampaign(db.ledger, c, h)
    ensures OnlyCampaign(Do(db, r).db.ledger, c, h)
  {
    var refund, fee := FinaliseEffect(db, h, r.feeHundredths);
    var l, m := db.ledger, Do(db, r).db.ledger;
    assert forall i :: 0 <= i < |l| ==> m[i] == l[i];
  }

  // A customer that has one campaign and nothing else: after any run that creates it, settles any
  // spend, adjusts, transfers, retries or aborts, and in the end cancels it, finalising it without
  // a fee leaves the balance lower by exactly the spend, or by the limit where the spend is over it.
  lemma CampaignCostsItsSpend(o: Db, steps: seq<Step>, c: Id, h: Id)
    requires Opening(o) && c in o.customers && h !in o.campaigns
    requires ReserveLaws.Finalises(RunAll(o, steps), Finalize(h, 0), h)
    requires RunAll(o, steps).campaigns[h].customer == c && OnlyCampaign(RunAll(o, steps).ledger, c, h)
    requires !ReserveLaws.SuspendedWithReserve(o, steps, h) && EditedOver(o, steps, h, Limit) == 0
    ensures var camp, d := RunAll(o, steps).campaigns[h], RunAll(o, steps + [Commit(Finalize(h, 0))]);
            && c in d.customers && h in d.campaigns && d.campaigns[h].status == DELETED
            && d.customers[c].balance == o.customers[c].balance - (if camp.spend <= camp.limit then camp.spend else camp.limit)
  {
    var db, r := RunAll(o, steps), Finalize(h, 0);
    RunsCompose(o, steps, [Commit(r)]);
    SingleStep(db, r);
    BalanceIsOpeningPlusEntries(o, steps + [Commit(r)], c);
    RunKeepsKinds(o, steps + [Commit(r)]);
    FinaliseRowsAreOwn(db, r, c, h);
    FinaliseRows(db, r, h);
    MovesAreNet(Do(db, r).db.ledger, c, h);
    var fee := FinalisedCampaignCosts(o, steps, h, 0);
  }

  // Created with a limit, settled, and cancelled.
  lemma UntilCancelled(o: Db, c: Id, limit: int, k: Key, h: Id, spend: int, k1: Key)
    requires Opening(o) && h !in o.campaigns && k != k1
    requires c in o.customers && 0 <= spend <= limit && limit + spend <= o.customers[c].balance
    requires o.customers[c].overdraft >= 0
    ensures var a, b := Do(o, Create(c, limit, k, h, false)), Spend(c, spend, k1, h);
            var d := Do(Do(a.db, b).db, Cancel(h)).db;
            && a.outcome.Applied? && Do(a.db, b).outcome.Applied?
            && h in d.campaigns && d.campaigns[h] == Campaign(c, DRAINING, limit, spend)
            && c in d.customers && d.customers[c] == Customer(o.customers[c].balance - limit, o.customers[c].overdraft)
  {
    CreateEffect(o, c, limit, k, h, false);
    var a := Do(o, Create(c, limit, k, h, false)).db;
    SpendEffect(a, c, spend, k1, h);
    CancelEffect(Do(a, Spend(c, spend, k1, h)).db, h);
  }

  lemma FinaliseWithoutFee(db: Db, h: Id)
    requires h in db.campaigns && db.campaigns[h].status == DRAINING && db.campaigns[h].spend <= db.campaigns[h].limit
    requires db.campaigns[h].customer in db.customers && CanPay(db, db.campaigns[h].customer, 0)
    ensures var c, d := db.campaigns[h], Do(db, Finalize(h, 0)).db;
            && h in d.campaigns && d.campaigns[h] == c.(status := DELETED)
            && c.customer in d.customers && d.customers[c.customer].balance == db.customers[c.customer].balance + c.limit - c.spend
  {
    var refund, fee := FinaliseCommitsIff(db, h, 0);
    refund, fee := FinaliseEffect(db, h, 0);
  }

  // The life of one campaign: created with a limit, settled, cancelled, finalised.
  lemma OneLife(o: Db, c: Id, limit: int, k: Key, h: Id, spend: int, k1: Key)
    requires Opening(o) && h !in o.campaigns && k != k1
    requires c in o.customers && 0 <= spend <= limit && limit + spend <= o.customers[c].balance
    requires o.customers[c].overdraft >= 0
    ensures var a, b := Do(o, Create(c, limit, k, h, false)), Spend(c, spend, k1, h);
            var d := Do(Do(Do(a.db, b).db, Cancel(h)).db, Finalize(h, 0)).db;
            && a.outcome.Applied? && Do(a.db, b).outcome.Applied?
            && c in d.customers && h in d.campaigns && d.campaigns[h] == Campaign(c, DELETED, limit, spend)
            && d.customers[c].balance == o.customers[c].balance - spend
  {
    UntilCancelled(o, c, limit, k, h, spend, k1);
    FinaliseWithoutFee(Do(Do(Do(o, Create(c, limit, k, h, false)).db, Spend(c, spend, k1, h)).db, Cancel(h)).db, h);
  }
}
