/**
 How often a campaign's reserve goes back to its customer: over every run, its RELEASE rows are
 exactly the reserves returned by overdraft suspensions plus the refund of its finalisation.
 */
module ReserveLaws {
  import opened Common
  import opened Ledger
  import opened LedgerLaws

  function ReleasesOf(h: Id): Entry -> int {
    (e: Entry) => if e.kind == RELEASE && e.key.None? && e.campaign == Some(h) then e.amount else 0
  }

  // A query of the ledger: the sum of a campaign's RELEASE rows, other than those of a transfer,
  // which carry a key and come with a lower budget.
  function Released(db: Db, h: Id): int { Total(db.ledger, ReleasesOf(h)) }

  // ---------------------------------------------------------------- one transaction

  predicate Suspends(db: Db, r: Request, h: Id) {
    && r.SetOverdraft? && h in db.campaigns && db.campaigns[h].status == ACTIVE
    && var d := Do(db, r).db; h in d.campaigns && d.campaigns[h].status == PAUSED
  }

  predicate Finalises(db: Db, r: Request, h: Id) {
    && r.Finalize? && r.campaign == h && h in db.campaigns && db.campaigns[h].status == DRAINING && Do(db, r).outcome == Done
  }

  // What is left of a campaign's budget, and the fee on it.
  function LeftOf(c: Campaign): nat { Max0(c.limit - c.spend) }

  function Fee(db: Db, r: Request, h: Id): int
    requires r.Finalize? && h in db.campaigns
  {
    PercentHundredths(LeftOf(db.campaigns[h]), r.feeHundredths)
  }

  // What a committed request returns of the campaign's budget.
  function Suspended(db: Db, r: Request, h: Id): nat {
    if Suspends(db, r, h) then LeftOf(db.campaigns[h]) else 0
  }

  function Refund(db: Db, r: Request, h: Id): nat {
    if Finalises(db, r, h) then Max0(LeftOf(db.campaigns[h]) - Fee(db, r, h)) else 0
  }

  // Booking an entry changes no campaign and no history.
  lemma {:induction false} PostReleases(db: Db, e: Entry, h: Id)
    requires e.customer in db.customers
    ensures var d := Post(db, e);
            && Released(d, h) == Released(db, h) + (if e.kind == RELEASE && e.key.None? && e.campaign == Some(h) then e.amount else 0)
            && d.campaigns == db.campaigns && d.history == db.history && d.customers.Keys == db.customers.Keys
  {
    TotalAppend(db.ledger, e, ReleasesOf(h));
  }

  lemma {:induction false} PauseCounts(db: Db, g: Id, h: Id)
    requires g in db.campaigns
    ensures Finals(SetStatus(db, g, PAUSED).history, h) == Finals(db.history, h)
  {
    assert SetStatus(db, g, PAUSED).history[..|db.history|] == db.history;
  }

  lemma {:induction false} PauseReleases(db: Db, customer: Id, g: Id, h: Id)
    requires customer in db.customers && g in db.campaigns
    ensures var d := PauseOne(db, customer, g);
            && Finals(d.history, h) == Finals(db.history, h)
            && Released(d, h) == Released(db, h) + (if g == h then LeftOf(db.campaigns[h]) else 0)
            && d.campaigns == db.campaigns[g := db.campaigns[g].(status := PAUSED)]
            && d.customers.Keys == db.customers.Keys
  {
    var paused, reserve := SetStatus(db, g, PAUSED), LeftOf(db.campaigns[g]);
    PauseCounts(db, g, h);
    if reserve > 0 { PostReleases(paused, ReleaseEntry(customer, g, reserve), h); }
  }

  // Suspending leaves a campaign alone unless it is ACTIVE, and then at most pauses it.
  lemma {:induction false} SuspendTouches(db: Db, customer: Id, overdraft: int, listed: seq<Id>, h: Id)
    requires customer in db.customers && h in db.campaigns && Suspend(db, customer, overdraft, listed).Some?
    ensures var c, after := db.campaigns[h], Suspend(db, customer, overdraft, listed).value.campaigns[h];
            after == c || (c.status == ACTIVE && after == c.(status := PAUSED))
    decreases |listed|
  {
    if listed == [] || db.customers[customer].balance + overdraft >= 0 {
    } else if db.campaigns[listed[0]].status != ACTIVE {
      SuspendTouches(db, customer, overdraft, listed[1..], h);
    } else {
      PauseReleases(db, customer, listed[0], h);
      SuspendTouches(PauseOne(db, customer, listed[0]), customer, overdraft, listed[1..], h);
    }
  }

  lemma {:induction false} SuspendCounts(db: Db, customer: Id, overdraft: int, listed: seq<Id>, h: Id)
    requires customer in db.customers && Suspend(db, customer, overdraft, listed).Some?
    ensures Finals(Suspend(db, customer, overdraft, listed).value.history, h) == Finals(db.history, h)
    decreases |listed|
  {
    if listed == [] || db.customers[customer].balance + overdraft >= 0 {
    } else if db.campaigns[listed[0]].status != ACTIVE {
      SuspendCounts(db, customer, overdraft, listed[1..], h);
    } else {
      PauseReleases(db, customer, listed[0], h);
      SuspendCounts(PauseOne(db, customer, listed[0]), customer, overdraft, listed[1..], h);
    }
  }

  // The reserve of h, if it was paused between the two states.
  function PauseAmount(db: Db, d: Db, h: Id): nat {
    if h in db.campaigns && h in d.campaigns && db.campaigns[h].status == ACTIVE && d.campaigns[h].status == PAUSED
    then LeftOf(db.campaigns[h]) else 0
  }

  lemma {:induction false} PauseAmountAdds(db: Db, mid: Db, d: Db, g: Id, h: Id)
    requires g in db.campaigns && db.campaigns[g].status == ACTIVE
    requires mid.campaigns == db.campaigns[g := db.campaigns[g].(status := PAUSED)]
    requires d.campaigns.Keys == db.campaigns.Keys
    requires h in db.campaigns && mid.campaigns[h].status != ACTIVE ==> d.campaigns[h] == mid.campaigns[h]
    ensures PauseAmount(db, d, h) == PauseAmount(mid, d, h) + (if g == h then LeftOf(db.campaigns[h]) else 0)
  {
  }

  // What suspending adds to the rows of h.
  lemma {:induction false} SuspendReleases(db: Db, customer: Id, overdraft: int, listed: seq<Id>, h: Id)
    requires customer in db.customers && Suspend(db, customer, overdraft, listed).Some?
    ensures var d := Suspend(db, customer, overdraft, listed).value;
            Released(d, h) == Released(db, h) + PauseAmount(db, d, h)
    decreases |listed|
  {
    if listed == [] || db.customers[customer].balance + overdraft >= 0 {
    } else if db.campaigns[listed[0]].status != ACTIVE {
      SuspendReleases(db, customer, overdraft, listed[1..], h);
    } else {
      var mid := PauseOne(db, customer, listed[0]);
      var d := Suspend(mid, customer, overdraft, listed[1..]).value;
      PauseReleases(db, customer, listed[0], h);
      SuspendReleases(mid, customer, overdraft, listed[1..], h);
      if h in db.campaigns { SuspendTouches(mid, customer, overdraft, listed[1..], h); }
      PauseAmountAdds(db, mid, d, listed[0], h);
    }
  }

  lemma {:induction false} RefundReleases(db: Db, customer: Id, g: Id, refund: int, h: Id)
    requires refund > 0 ==> customer in db.customers
    ensures var d := Settle(db, customer, g, refund, 0);
            && Released(d, h) == Released(db, h) + (if g == h then Max0(refund) else 0)
            && d.campaigns == db.campaigns && d.history == db.history && d.customers.Keys == db.customers.Keys
  {
    if refund > 0 { PostReleases(db, ReleaseEntry(customer, g, refund), h); }
  }

  lemma {:induction false} SettleReleases(db: Db, customer: Id, g: Id, refund: int, fee: int, h: Id)
    requires refund > 0 || fee > 0 ==> customer in db.customers
    ensures var d := Settle(db, customer, g, refund, fee);
            && Released(d, h) == Released(db, h) + (if g == h then Max0(refund) else 0)
            && d.campaigns == db.campaigns && d.history == db.history
  {
    var released := Settle(db, customer, g, refund, 0);
    RefundReleases(db, customer, g, refund, h);
    if fee > 0 {
      PostReleases(released, FeeEntry(customer, g, fee), h);
      assert Settle(db, customer, g, refund, fee) == Post(released, FeeEntry(customer, g, fee));
    }
  }

  lemma {:induction false} DeletedCounts(db: Db, g: Id, h: Id)
    requires g in db.campaigns
    ensures Finals(SetStatus(db, g, DELETED).history, h) == Finals(db.history, h) + (if g == h then 1 else 0)
  {
    assert SetStatus(db, g, DELETED).history[..|db.history|] == db.history;
  }

  lemma {:induction false} FinalizeReleases(db: Db, r: Request, h: Id)
    requires r.Finalize?
    ensures var d := Do(db, r).db;
            && Released(d, h) == Released(db, h) + Refund(db, r, h)
            && Finals(d.history, h) == Finals(db.history, h) + (if Finalises(db, r, h) then 1 else 0)
  {
    if r.campaign in db.campaigns && db.campaigns[r.campaign].status == DRAINING {
      var fee := Fee(db, r, r.campaign);
      ConcludeReleases(db, r.campaign, LeftOf(db.campaigns[r.campaign]) - fee, fee, h);
    }
  }

  lemma {:induction false} ConcludeReleases(db: Db, g: Id, refund: int, fee: int, h: Id)
    requires g in db.campaigns
    ensures var d := Conclude(db, g, refund, fee);
            && Released(d.db, h) == Released(db, h) + (if g == h && d.outcome == Done then Max0(refund) else 0)
            && Finals(d.db.history, h) == Finals(db.history, h) + (if g == h && d.outcome == Done then 1 else 0)
  {
    if Conclude(db, g, refund, fee).outcome == Done {
      SettleReleases(db, db.campaigns[g].customer, g, refund, fee, h);
      DeletedCounts(Settle(db, db.campaigns[g].customer, g, refund, fee), g, h);
    }
  }

  lemma {:induction false} OverdraftReleases(db: Db, r: Request, h: Id)
    requires r.SetOverdraft?
    ensures var d := Do(db, r).db;
            && Released(d, h) == Released(db, h) + Suspended(db, r, h)
            && Finals(d.history, h) == Finals(db.history, h)
  {
    if r.customer in db.customers && Suspend(db, r.customer, r.overdraft, r.listed).Some? {
      SuspendReleases(db, r.customer, r.overdraft, r.listed, h);
      SuspendCounts(db, r.customer, r.overdraft, r.listed, h);
      if h in db.campaigns { SuspendTouches(db, r.customer, r.overdraft, r.listed, h); }
    }
  }

  lemma {:induction false} DoReleases(db: Db, r: Request, h: Id)
    ensures var d := Do(db, r).db;
            && Released(d, h) == Released(db, h) + Suspended(db, r, h) + Refund(db, r, h)
            && Finals(d.history, h) == Finals(db.history, h) + (if Finalises(db, r, h) then 1 else 0)
  {
    match r
    case Finalize(_, _) => FinalizeReleases(db, r, h);
    case SetOverdraft(_, _, _) => OverdraftReleases(db, r, h);
    case Cancel(c) => CancelReleases(db, c, h);
    case Transfer(_, _, _, _, _) => TransferReleases(db, r, h);
    case Adjust(_, _, _) => AdjustReleases(db, r, h);
    case Elsewhere(_, _) =>
    case _ =>
      KeyedReleases(db, r, h);
  }

  lemma {:induction false} CancelReleases(db: Db, g: Id, h: Id)
    ensures DoCancel(db, g).db.ledger == db.ledger && Finals(DoCancel(db, g).db.history, h) == Finals(db.history, h)
  {
    if g in db.campaigns && db.campaigns[g].status !in {DELETED, DRAINING} {
      assert DoCancel(db, g).db.history[..|db.history|] == db.history;
    }
  }

  lemma {:induction false} KeyedReleases(db: Db, r: Request, h: Id)
    requires Keyed(r)
    ensures Released(DoKeyed(db, r).db, h) == Released(db, h) && Finals(DoKeyed(db, r).db.history, h) == Finals(db.history, h)
  {
    if DoKeyed(db, r).outcome.Applied? {
      PostReleases(db, EntryOf(r), h);
      if r.Create? { assert Booked(db, r).history[..|db.history|] == db.history; }
    }
  }

  lemma {:induction false} TransferReleases(db: Db, r: Request, h: Id)
    requires r.Transfer?
    ensures Released(DoTransfer(db, r).db, h) == Released(db, h) && DoTransfer(db, r).db.history == db.history
  {
    if DoTransfer(db, r).db != db {
      PostReleases(db, TransferRelease(r), h);
      PostReleases(Post(db, TransferRelease(r)), TransferFreeze(r), h);
    }
  }

  lemma {:induction false} AdjustReleases(db: Db, r: Request, h: Id)
    requires r.Adjust?
    ensures Released(DoAdjust(db, r).db, h) == Released(db, h) && DoAdjust(db, r).db.history == db.history
  {
    if DoAdjust(db, r).outcome == Done { PostReleases(db, AdjustEntry(r), h); }
  }

  // ---------------------------------------------------------------- runs

  // The reserves suspensions returned over a run, and the refunds of finalisations.
  ghost function SuspendedOver(db: Db, steps: seq<Step>, h: Id): nat
    decreases |steps|
  {
    if steps == [] then 0
    else (if steps[0].Commit? then Suspended(db, steps[0].request, h) else 0) + SuspendedOver(Perform(db, steps[0]), steps[1..], h)
  }

  ghost function RefundedOver(db: Db, steps: seq<Step>, h: Id): nat
    decreases |steps|
  {
    if steps == [] then 0
    else (if steps[0].Commit? then Refund(db, steps[0].request, h) else 0) + RefundedOver(Perform(db, steps[0]), steps[1..], h)
  }

  // Some committed overdraft change paused the campaign while it had a reserve.
  ghost predicate SuspendedWithReserve(db: Db, steps: seq<Step>, h: Id)
    decreases |steps|
  {
    && steps != []
    && (|| (steps[0].Commit? && Suspends(db, steps[0].request, h) && LeftOf(db.campaigns[h]) > 0)
        || SuspendedWithReserve(Perform(db, steps[0]), steps[1..], h))
  }

  lemma {:induction false} RunReleases(db: Db, steps: seq<Step>, h: Id)
    ensures var d := RunAll(db, steps);
            && Released(d, h) == Released(db, h) + SuspendedOver(db, steps, h) + RefundedOver(db, steps, h)
            && Finals(d.history, h) >= Finals(db.history, h)
            && (Finals(d.history, h) == Finals(db.history, h) ==> RefundedOver(db, steps, h) == 0)
    ensures SuspendedOver(db, steps, h) > 0 <==> SuspendedWithReserve(db, steps, h)
    decreases |steps|
  {
    if steps != [] {
      if steps[0].Commit? { DoReleases(db, steps[0].request, h); }
      RunReleases(Perform(db, steps[0]), steps[1..], h);
    }
  }

  // Over every run the RELEASE rows of a campaign are exactly what suspensions returned plus the
  // refund; and before it is finalised there are none if and only if no overdraft change paused
  // it while it had a reserve.
  lemma {:induction false} ReleasedOverRun(o: Db, steps: seq<Step>, h: Id)
    requires Opening(o)
    ensures var db := RunAll(o, steps);
            && Released(db, h) == SuspendedOver(o, steps, h) + RefundedOver(o, steps, h)
            && (Finals(db.history, h) == 0 ==> (Released(db, h) == 0 <==> !SuspendedWithReserve(o, steps, h)))
  {
    RunReleases(o, steps, h);
  }

  // Finalising returns no more than the reserve in all, if and only if what the ledger shows as
  // released before it is covered by the fee and the reserve.
  lemma {:induction false} FinalisationStaysWithinReserveIff(db: Db, r: Request, h: Id)
    requires Finalises(db, r, h)
    ensures var fee, reserve := Fee(db, r, h), LeftOf(db.campaigns[h]);
            Released(Do(db, r).db, h) <= reserve <==> Released(db, h) <= (if fee < reserve then fee else reserve)
  {
    DoReleases(db, r, h);
  }

  // After any run, finalising a campaign leaves its releases within its reserve if and only if
  // the suspensions of the run returned no more than the fee, nor than the reserve; so without a
  // fee, if and only if it was never suspended with a reserve.
  lemma {:induction false} ReserveReturnedOnceIff(o: Db, steps: seq<Step>, r: Request, h: Id)
    requires Opening(o) && Finalises(RunAll(o, steps), r, h)
    ensures var db := RunAll(o, steps);
            var fee, reserve := Fee(db, r, h), LeftOf(db.campaigns[h]);
            && (Released(Do(db, r).db, h) <= reserve <==> SuspendedOver(o, steps, h) <= (if fee < reserve then fee else reserve))
            && (fee == 0 ==> (Released(Do(db, r).db, h) <= reserve <==> !SuspendedWithReserve(o, steps, h)))
  {
    var db := RunAll(o, steps);
    FinalisedAtMostOnce(o, steps, h);
    RunReleases(o, steps, h);
    FeeWithinReserve(LeftOf(db.campaigns[h]), r.feeHundredths);
    FinalisationStaysWithinReserveIff(db, r, h);
  }
}
