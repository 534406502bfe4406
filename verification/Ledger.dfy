/**
 The customer ledger: balances, campaigns and an append-only list of entries, changed only by
 transactions. A transaction is one function from database to database; any failed statement
 aborts it, which leaves the database as it was.
 */
module Ledger {
  import opened Common

  type Id = nat
  type Key = string

  datatype Kind =
    | TOPUP | PAYMENT_TOPUP | PAYMENT_REFUND | PAYMENT_CHARGEBACK | PAYMENT_CHARGEBACK_REVERSAL
    | FREEZE | RELEASE | FEE | RECONCILIATION_ADJUST
  datatype Entry = Entry(customer: Id, campaign: Option<Id>, amount: int, kind: Kind, key: Option<Key>, intent: Option<Id>)

  datatype Customer = Customer(balance: int, overdraft: int)
  datatype Status = ACTIVE | PAUSED | EXHAUSTED | DRAINING | DELETED
  datatype Campaign = Campaign(customer: Id, status: Status, limit: int, spend: int)
  datatype Event = StartCampaign(campaign: Id) | CancelCampaign(campaign: Id) | PauseCampaign(campaign: Id)
  datatype Change = Change(campaign: Id, before: Option<Status>, after: Status)

  datatype Db = Db(
    customers: map<Id, Customer>,
    campaigns: map<Id, Campaign>,
    ledger: seq<Entry>,
    outbox: seq<Event>,
    history: seq<Change>)

  datatype Error =
    | FencingLost | InvalidAmount | CustomerNotFound | CampaignNotFound | BalanceCheckFailed
    | PaymentTopupNotFound | RefundExceedsTopup | ChargebackExceedsTopup | ReversalExceedsWithdrawn
    | InsufficientBalance | IncompleteIdempotency | CampaignExists | KeyTaken

  // Requests that book one entry under an idempotency key (`Create` freezes a new campaign's
  // budget, `Spend` settles spend), requests that do not, and updates made by code outside this
  // model (pausing, resuming, budget edits).
  datatype Request =
    | TopUp(customer: Id, amount: int, key: Key, fenced: bool)
    | Credit(customer: Id, amount: int, key: Key, intent: Id)
    | Refund(customer: Id, amount: int, key: Key, intent: Id)
    | Chargeback(customer: Id, amount: int, key: Key, intent: Id)
    | Reversal(customer: Id, amount: int, key: Key, intent: Id)
    | Create(customer: Id, amount: int, key: Key, campaign: Id, scheduled: bool)
    | Spend(customer: Id, amount: int, key: Key, campaign: Id)
    | Transfer(customer: Id, amount: int, key: Key, worst: Id, best: Id)
    | Adjust(customer: Id, amount: int, campaign: Id)
    | Cancel(campaign: Id)
    | Finalize(campaign: Id, feeHundredths: int)
    | SetOverdraft(customer: Id, overdraft: int, listed: seq<Id>)
    | Elsewhere(campaign: Id, update: Campaign)

  predicate Keyed(r: Request) {
    r.TopUp? || r.Credit? || r.Refund? || r.Chargeback? || r.Reversal? || r.Create? || r.Spend?
  }

  datatype Outcome = Applied(id: nat) | Duplicate(id: nat) | Done | Failed(error: Error)
  datatype Result = Result(db: Db, outcome: Outcome)

  // ---------------------------------------------------------------- queries

  function FindKey(ledger: seq<Entry>, key: Key): (r: Option<nat>)
    ensures r.Some? ==> r.value < |ledger| && ledger[r.value].key == Some(key)
    ensures r.None? ==> forall i :: 0 <= i < |ledger| ==> ledger[i].key != Some(key)
  {
    if ledger == [] then None
    else
      var n := |ledger| - 1;
      if ledger[n].key == Some(key) then Some(n) else FindKey(ledger[..n], key)
  }

  function FindTopup(ledger: seq<Entry>, intent: Id): (r: Option<nat>)
    ensures r.Some? ==> r.value < |ledger| && IsTopupOf(ledger[r.value], intent)
    ensures r.None? ==> forall i :: 0 <= i < |ledger| ==> !IsTopupOf(ledger[i], intent)
  {
    if ledger == [] then None
    else
      var n := |ledger| - 1;
      if IsTopupOf(ledger[n], intent) then Some(n) else FindTopup(ledger[..n], intent)
  }

  predicate IsTopupOf(e: Entry, intent: Id) { e.kind == PAYMENT_TOPUP && e.intent == Some(intent) }

  function Total(ledger: seq<Entry>, f: Entry -> int): int {
    if ledger == [] then 0 else Total(ledger[..|ledger| - 1], f) + f(ledger[|ledger| - 1])
  }

  function Abs(x: int): int { if x < 0 then -x else x }

  function OfIntent(kind: Kind, intent: Id): Entry -> int {
    (e: Entry) => if e.kind == kind && e.intent == Some(intent)
      then (if kind == PAYMENT_CHARGEBACK_REVERSAL then e.amount else Abs(e.amount)) else 0
  }

  function Refunded(db: Db, intent: Id): int { Total(db.ledger, OfIntent(PAYMENT_REFUND, intent)) }
  function ChargedBack(db: Db, intent: Id): int { Total(db.ledger, OfIntent(PAYMENT_CHARGEBACK, intent)) }
  function Reversed(db: Db, intent: Id): int { Total(db.ledger, OfIntent(PAYMENT_CHARGEBACK_REVERSAL, intent)) }
  function NetChargeback(db: Db, intent: Id): int { ChargedBack(db, intent) - Reversed(db, intent) }

  // ---------------------------------------------------------------- statements

  // The column check on customers: balance + allowed_overdraft >= 0.
  predicate BalanceAllowed(db: Db, customer: Id, delta: int) {
    customer in db.customers && db.customers[customer].balance + delta + db.customers[customer].overdraft >= 0
  }

  function AddBalance(db: Db, customer: Id, delta: int): Db
    requires customer in db.customers
  {
    var c := db.customers[customer];
    db.(customers := db.customers[customer := c.(balance := c.balance + delta)])
  }

  // The balance change booked with an entry: none with FEE and RECONCILIATION_ADJUST rows, and a
  // FREEZE row carries the amount that was taken with a positive sign.
  predicate MovesBalance(e: Entry) { e.kind != FEE && e.kind != RECONCILIATION_ADJUST }

  function Effect(e: Entry): int {
    if !MovesBalance(e) then 0 else if e.kind == FREEZE then -e.amount else e.amount
  }

  // Inserts an entry together with the balance change it records.
  function Post(db: Db, e: Entry): Db
    requires e.customer in db.customers
  {
    var moved := if MovesBalance(e) then AddBalance(db, e.customer, Effect(e)) else db;
    moved.(ledger := db.ledger + [e])
  }

  // ---------------------------------------------------------------- keyed requests

  function EntryOf(r: Request): Entry
    requires Keyed(r)
  {
    match r
    case TopUp(c, a, k, _) => Entry(c, None, a, TOPUP, Some(k), None)
    case Credit(c, a, k, i) => Entry(c, None, a, PAYMENT_TOPUP, Some(k), Some(i))
    case Refund(c, a, k, i) => Entry(c, None, -a, PAYMENT_REFUND, Some(k), Some(i))
    case Chargeback(c, a, k, i) => Entry(c, None, -a, PAYMENT_CHARGEBACK, Some(k), Some(i))
    case Reversal(c, a, k, i) => Entry(c, None, a, PAYMENT_CHARGEBACK_REVERSAL, Some(k), Some(i))
    case Create(c, a, k, h, _) => Entry(c, Some(h), a, FREEZE, Some(k), None)
    case Spend(c, a, k, h) => Entry(c, Some(h), -a, FEE, Some(k), None)
  }

  // The entry that already answers the request, if there is one.
  function Existing(db: Db, r: Request): Option<nat>
    requires Keyed(r)
  {
    if r.Credit? && FindTopup(db.ledger, r.intent).Some? then FindTopup(db.ledger, r.intent)
    else FindKey(db.ledger, r.key)
  }

  // The business rule that refuses a request which is not a duplicate.
  function Refusal(db: Db, r: Request): Option<Error>
    requires Keyed(r)
  {
    var e := EntryOf(r);
    if (r.Refund? || r.Chargeback? || r.Reversal?) && FindTopup(db.ledger, r.intent).None? then Some(PaymentTopupNotFound)
    else if r.Refund? && Refunded(db, r.intent) + r.amount > TopupAmount(db, r.intent) then Some(RefundExceedsTopup)
    else if r.Chargeback? && Refunded(db, r.intent) + NetChargeback(db, r.intent) + r.amount > TopupAmount(db, r.intent)
    then Some(ChargebackExceedsTopup)
    else if r.Reversal? && r.amount > NetChargeback(db, r.intent) then Some(ReversalExceedsWithdrawn)
    else if r.Spend? && !(r.campaign in db.campaigns && db.campaigns[r.campaign].customer == r.customer)
    then Some(CampaignNotFound)
    else if e.customer !in db.customers then Some(CustomerNotFound)
    else if r.Spend? && db.customers[r.customer].balance < r.amount then Some(InsufficientBalance)
    else if r.Create? && db.customers[r.customer].balance + db.customers[r.customer].overdraft < r.amount
    then Some(InsufficientBalance)
    else if r.Create? && r.campaign in db.campaigns then Some(CampaignExists)
    else if MovesBalance(e) && !BalanceAllowed(db, e.customer, Effect(e)) then Some(BalanceCheckFailed)
    else None
  }

  function TopupAmount(db: Db, intent: Id): int {
    match FindTopup(db.ledger, intent)
    case Some(i) => db.ledger[i].amount
    case None => 0
  }

  function DoKeyed(db: Db, r: Request): Result
    requires Keyed(r)
  {
    if r.TopUp? && r.fenced then Result(db, Failed(FencingLost))
    else if (r.Refund? || r.Chargeback? || r.Reversal?) && r.amount <= 0 then Result(db, Failed(InvalidAmount))
    else match Existing(db, r)
      case Some(i) => Result(db, if r.Create? && db.ledger[i].campaign.None? then Failed(IncompleteIdempotency) else Duplicate(i))
      case None =>
        match Refusal(db, r)
        case Some(error) => Result(db, Failed(error))
        case None => Result(Booked(db, r), Applied(|db.ledger|))
  }

  // The database after a keyed request: its entry, and its campaign created or charged.
  function Booked(db: Db, r: Request): Db
    requires Keyed(r) && EntryOf(r).customer in db.customers && (r.Spend? ==> r.campaign in db.campaigns)
  {
    var d := Post(db, EntryOf(r));
    if r.Create? then OpenCampaign(d, r.customer, r.campaign, r.amount, r.scheduled)
    else if r.Spend? then AddSpend(d, r.campaign, r.amount)
    else d
  }

  function OpenCampaign(db: Db, customer: Id, campaign: Id, limit: int, scheduled: bool): Db {
    var status := if scheduled then PAUSED else ACTIVE;
    db.(campaigns := db.campaigns[campaign := Campaign(customer, status, limit, 0)],
        history := db.history + [Change(campaign, None, status)],
        outbox := db.outbox + [if scheduled then PauseCampaign(campaign) else StartCampaign(campaign)])
  }

  function AddSpend(db: Db, campaign: Id, amount: int): Db
    requires campaign in db.campaigns
  {
    var c := db.campaigns[campaign];
    db.(campaigns := db.campaigns[campaign := c.(spend := c.spend + amount)])
  }

  // ---------------------------------------------------------------- transfers and adjustments

  function TransferRelease(r: Request): Entry
    requires r.Transfer?
  {
    Entry(r.customer, Some(r.worst), r.amount, RELEASE, Some(r.key + ":release"), None)
  }

  function TransferFreeze(r: Request): Entry
    requires r.Transfer?
  {
    Entry(r.customer, Some(r.best), r.amount, FREEZE, Some(r.key), None)
  }

  // Whether the transfer is still called for when both campaigns are locked.
  predicate TransferDue(db: Db, r: Request)
    requires r.Transfer? && r.worst in db.campaigns && r.best in db.campaigns
  {
    var w, b := db.campaigns[r.worst], db.campaigns[r.best];
    && w.customer == r.customer == b.customer && w.status == ACTIVE == b.status
    && w.limit - r.amount >= w.spend && w.limit - r.amount > 0
  }

  function ShiftLimits(db: Db, r: Request): Db
    requires r.Transfer? && r.worst in db.campaigns && r.best in db.campaigns
  {
    var w, b := db.campaigns[r.worst], db.campaigns[r.best];
    db.(campaigns := db.campaigns[r.worst := w.(limit := w.limit - r.amount)][r.best := b.(limit := b.limit + r.amount)])
  }

  // Autoscaling moves budget between two campaigns of a customer, through the balance.
  function DoTransfer(db: Db, r: Request): Result
    requires r.Transfer?
  {
    if r.worst == r.best || FindKey(db.ledger, r.key).Some? then Result(db, Done)
    else if r.worst !in db.campaigns || r.best !in db.campaigns then Result(db, Failed(CampaignNotFound))
    else if !TransferDue(db, r) then Result(db, Done)
    else MoveBudget(db, r)
  }

  // The postings of a transfer that is due: release, then freeze; any failure aborts it.
  function MoveBudget(db: Db, r: Request): Result
    requires r.Transfer? && r.worst in db.campaigns && r.best in db.campaigns
  {
    if r.customer !in db.customers then Result(db, Failed(CustomerNotFound))
    else if !BalanceAllowed(db, r.customer, r.amount) then Result(db, Failed(BalanceCheckFailed))
    else if FindKey(db.ledger, r.key + ":release").Some? then Result(db, Failed(KeyTaken))
    else
      var released := Post(db, TransferRelease(r));
      if !BalanceAllowed(released, r.customer, -r.amount) then Result(db, Failed(BalanceCheckFailed))
      else Result(ShiftLimits(Post(released, TransferFreeze(r)), r), Done)
  }

  function AdjustEntry(r: Request): Entry
    requires r.Adjust?
  {
    Entry(r.customer, Some(r.campaign), r.amount, RECONCILIATION_ADJUST, None, None)
  }

  // A reconciliation adjustment corrects the spend, not the balance.
  function DoAdjust(db: Db, r: Request): Result
    requires r.Adjust?
  {
    if r.customer !in db.customers then Result(db, Failed(CustomerNotFound))
    else if r.campaign !in db.campaigns then Result(db, Failed(CampaignNotFound))
    else Result(AddSpend(Post(db, AdjustEntry(r)), r.campaign, -r.amount), Done)
  }

  // ---------------------------------------------------------------- campaigns

  function SetStatus(db: Db, campaign: Id, status: Status): Db
    requires campaign in db.campaigns
  {
    var c := db.campaigns[campaign];
    db.(campaigns := db.campaigns[campaign := c.(status := status)],
        history := db.history + [Change(campaign, Some(c.status), status)])
  }

  // What is left of a campaign's budget.
  function Reserve(c: Campaign): nat { if c.limit - c.spend < 0 then 0 else c.limit - c.spend }

  // The cancellation fee, in hundredths of a percent of the amount.
  function PercentHundredths(amount: int, hundredths: int): int {
    if amount <= 0 || hundredths <= 0 then 0 else Product(amount, hundredths) / 10000
  }

  function Product(x: int, y: int): int { x * y }

  function DoCancel(db: Db, campaign: Id): Result {
    if campaign !in db.campaigns then Result(db, Failed(CampaignNotFound))
    else if db.campaigns[campaign].status in {DELETED, DRAINING} then Result(db, Done)
    else
      var d := SetStatus(db, campaign, DRAINING);
      Result(d.(outbox := d.outbox + [CancelCampaign(campaign)]), Done)
  }

  function ReleaseEntry(customer: Id, campaign: Id, amount: int): Entry {
    Entry(customer, Some(campaign), amount, RELEASE, None, None)
  }

  function FeeEntry(customer: Id, campaign: Id, amount: int): Entry {
    Entry(customer, Some(campaign), amount, FEE, None, None)
  }

  // Books what goes back to the customer and the fee.
  function Settle(db: Db, customer: Id, campaign: Id, refund: int, fee: int): Db
    requires refund > 0 || fee > 0 ==> customer in db.customers
  {
    var released := if refund > 0 then Post(db, ReleaseEntry(customer, campaign, refund)) else db;
    if fee > 0 then Post(released, FeeEntry(customer, campaign, fee)) else released
  }

  // Books the split of a campaign's reserve and deletes the campaign.
  function Conclude(db: Db, campaign: Id, refund: int, fee: int): Result
    requires campaign in db.campaigns
  {
    var customer := db.campaigns[campaign].customer;
    if customer !in db.customers && (refund > 0 || fee > 0) then Result(db, Failed(CustomerNotFound))
    else if refund > 0 && !BalanceAllowed(db, customer, refund) then Result(db, Failed(BalanceCheckFailed))
    else Result(SetStatus(Settle(db, customer, campaign, refund, fee), campaign, DELETED), Done)
  }

  function DoFinalize(db: Db, campaign: Id, feeHundredths: int): Result {
    if campaign !in db.campaigns then Result(db, Failed(CampaignNotFound))
    else if db.campaigns[campaign].status != DRAINING then Result(db, Done)
    else
      var reserve := Reserve(db.campaigns[campaign]);
      var fee := PercentHundredths(reserve, feeHundredths);
      Conclude(db, campaign, reserve - fee, fee)
  }

  // Updates by other code may edit budgets, and pause, resume or exhaust a live campaign.
  predicate MayUpdate(was: Campaign, now: Campaign) {
    now.customer == was.customer &&
    (now.status == was.status || (was.status in {ACTIVE, PAUSED, EXHAUSTED} && now.status in {ACTIVE, PAUSED, EXHAUSTED}))
  }

  // ---------------------------------------------------------------- overdraft

  // Suspends one active campaign and returns its reserve to the customer.
  function PauseOne(db: Db, customer: Id, campaign: Id): Db
    requires customer in db.customers && campaign in db.campaigns
  {
    var reserve := Reserve(db.campaigns[campaign]);
    var paused := SetStatus(db, campaign, PAUSED);
    var released := if reserve > 0 then Post(paused, ReleaseEntry(customer, campaign, reserve)) else paused;
    released.(outbox := released.outbox + [PauseCampaign(campaign)])
  }

  // The suspension loop over the listed campaigns; None when a listed row cannot be locked.
  function Suspend(db: Db, customer: Id, overdraft: int, listed: seq<Id>): (r: Option<Db>)
    requires customer in db.customers
    ensures r.Some? ==> r.value.customers.Keys == db.customers.Keys && r.value.campaigns.Keys == db.campaigns.Keys
    decreases |listed|
  {
    if listed == [] || db.customers[customer].balance + overdraft >= 0 then Some(db)
    else if listed[0] !in db.campaigns then None
    else if db.campaigns[listed[0]].status != ACTIVE then Suspend(db, customer, overdraft, listed[1..])
    else Suspend(PauseOne(db, customer, listed[0]), customer, overdraft, listed[1..])
  }

  function DoSetOverdraft(db: Db, customer: Id, overdraft: int, listed: seq<Id>): Result {
    if customer !in db.customers then Result(db, Failed(CustomerNotFound))
    else if overdraft == db.customers[customer].overdraft then Result(db, Done)
    else
      var suspended := if overdraft < db.customers[customer].overdraft then Suspend(db, customer, overdraft, listed) else Some(db);
      match suspended
      case None => Result(db, Failed(CampaignNotFound))
      case Some(d) =>
        if d.customers[customer].balance + overdraft < 0 then Result(db, Failed(BalanceCheckFailed))
        else Result(d.(customers := d.customers[customer := d.customers[customer].(overdraft := overdraft)]), Done)
  }

  // ---------------------------------------------------------------- runs

  function Do(db: Db, r: Request): Result {
    match r
    case Transfer(_, _, _, _, _) => DoTransfer(db, r)
    case Adjust(_, _, _) => DoAdjust(db, r)
    case Cancel(c) => DoCancel(db, c)
    case Finalize(c, h) => DoFinalize(db, c, h)
    case SetOverdraft(c, o, listed) => DoSetOverdraft(db, c, o, listed)
    case Elsewhere(c, update) =>
      if c in db.campaigns && MayUpdate(db.campaigns[c], update)
      then Result(db.(campaigns := db.campaigns[c := update]), Done) else Result(db, Failed(CampaignNotFound))
    case _ => DoKeyed(db, r)
  }

  // A transaction commits, or is aborted by a conflict, a lost connection or a crash.
  datatype Step = Commit(request: Request) | Abort(request: Request)

  function Perform(db: Db, s: Step): Db {
    match s
    case Commit(r) => Do(db, r).db
    case Abort(_) => db
  }

  function RunAll(db: Db, steps: seq<Step>): Db
    decreases |steps|
  {
    if steps == [] then db else RunAll(Perform(db, steps[0]), steps[1..])
  }

  // A database before the first transaction: nothing booked, no balance below its overdraft.
  ghost predicate Opening(db: Db) {
    && db.ledger == [] && db.history == [] && db.outbox == []
    && (forall c :: c in db.customers ==> db.customers[c].balance + db.customers[c].overdraft >= 0)
  }
}
