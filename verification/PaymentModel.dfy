// The pay-once protocol of the client, as lock-delimited atomic steps.
//
// Any number of tasks run `pay_challenge` at once. A task that finds its
// invoice already claimed returns in the claiming step itself; every other
// task is a Call, whose `pc` is its program counter. Reservation ids are
// handed out in the order of the claims, so call `i` owns reservation `i`.
// The wallet is an oracle: it answers anything, or never.

module PaymentModel {
  import opened Numbers
  import opened Text
  import opened BudgetModel
  import BudgetRuns

  datatype Payment = Payment(preimage: string, paymentHash: string, amountSats: U64, feeSats: U64)

  datatype Receipt = Receipt(
    endpoint: string,
    amountSats: U64,
    feeSats: U64,
    paymentHash: string,
    preimage: string,
    responseStatus: nat)
  {
    function TotalCostSats(): U64 {
      SatAdd(amountSats, feeSats)
    }
  }

  /** A payment that is settled and published, and the index of its receipt. */
  datatype Known = Known(payment: Payment, receipt: nat)

  datatype Pc =
    | AwaitingBackend
    | Abandoned // cancelled at the await, or answered with an error that proves nothing
    | BackendPaid(payment: Payment)
    | ReceiptPushed(payment: Payment, receipt: nat)
    | Charged(payment: Payment, receipt: nat)
    | Violated(payment: Payment, receipt: nat)
    | Published(payment: Payment, receipt: nat)
    | BackendRefused
    | Released
    | Withdrawn
  {
    /** The wallet confirmed that no money moved. */
    predicate Refused() {
      BackendRefused? || Released? || Withdrawn?
    }

    predicate HasReceipt() {
      ReceiptPushed? || Charged? || Violated? || Published?
    }

    predicate Paid() {
      BackendPaid? || HasReceipt()
    }

    /** The task is alive and still holds its reservation token. */
    predicate HoldsToken() {
      AwaitingBackend? || BackendPaid? || ReceiptPushed? || BackendRefused?
    }

    /** The reservation is still charged against the budget. */
    predicate Open() {
      HoldsToken() || Abandoned?
    }
  }

  datatype Call = Call(
    invoice: string,
    key: string,
    amountSats: U64,
    maxFeeSats: U64,
    domain: Option<string>,
    url: string,
    pc: Pc)

  datatype Config = Config(budget: Budget, maxFeeSats: U64, supportsFeeLimit: bool)

  /**
   * `payments`, `receipts` and the tracker are the client's own state. `calls`
   * and `pushedBy` record who did what, and `returned` which settled payments
   * `pay_challenge` has handed back to its callers.
   */
  datatype Client = Client(
    payments: map<string, Option<Known>>,
    receipts: seq<Receipt>,
    run: BudgetRuns.Run,
    calls: seq<Call>,
    pushedBy: seq<nat>,
    returned: set<Known>)

  const NEW_CLIENT := Client(map[], [], BudgetRuns.NEW_RUN, [], [], {})

  datatype Event =
    | Claim(invoice: string, amountSats: U64, domain: Option<string>, url: string, now: U64)
    | WalletPays(id: nat, payment: Payment)
    | WalletRejects(id: nat)
    | WalletUncertain(id: nat)
    | Cancel(id: nat)
    | PushReceipt(id: nat)
    | SettlePayment(id: nat, now: U64)
    | Publish(id: nat)
    | ReleaseReservation(id: nat)
    | Withdraw(id: nat)
    | RecordStatus(known: Known, status: nat)

  /** The total a payment is charged with, and whether it breaks its authorization. */
  function ChargedTotal(p: Payment): U64 {
    SatAdd(p.amountSats, p.feeSats)
  }

  predicate IsViolation(call: Call, p: Payment) {
    || p.amountSats != call.amountSats
    || p.feeSats > call.maxFeeSats
    || CheckedAdd(p.amountSats, p.feeSats).None?
  }

  ghost predicate At(c: Client, id: nat, pc: Pc) {
    id < |c.calls| && c.calls[id].pc == pc
  }

  predicate IsCall(c: Client, id: nat) {
    id < |c.calls|
  }

  /** The call on the budget tracker that a step makes, if it makes one. */
  ghost function BudgetCall(cfg: Config, c: Client, e: Event): Option<BudgetRuns.Event>
    requires |c.calls| <= U64_MAX
  {
    match e
    case Claim(invoice, amount, domain, url, now) =>
      if Lower(invoice) !in c.payments && cfg.supportsFeeLimit
      then Some(BudgetRuns.Reserving(amount, cfg.maxFeeSats, domain, now)) else None
    case WalletUncertain(id) =>
      if IsCall(c, id) && c.calls[id].pc.AwaitingBackend? then Some(BudgetRuns.Dropping(id)) else None
    case Cancel(id) =>
      if IsCall(c, id) && c.calls[id].pc.AwaitingBackend? then Some(BudgetRuns.Dropping(id)) else None
    case SettlePayment(id, now) =>
      if IsCall(c, id) && c.calls[id].pc.ReceiptPushed? then
        var p := c.calls[id].pc.payment;
        Some(BudgetRuns.Settling(id, ChargedTotal(p), now, IsViolation(c.calls[id], p)))
      else None
    case ReleaseReservation(id) =>
      if IsCall(c, id) && c.calls[id].pc.BackendRefused? then Some(BudgetRuns.Releasing(id)) else None
    case _ => None
  }

  ghost function RunAfter(cfg: Config, c: Client, e: Event): (r: BudgetRuns.Run)
    requires |c.calls| <= U64_MAX && BudgetRuns.Sound(c.run)
    ensures BudgetRuns.Sound(r)
  {
    match BudgetCall(cfg, c, e)
    case None => c.run
    case Some(call) => BudgetRuns.Step(cfg.budget, c.run, call)
  }

  function SetPc(c: Client, id: nat, pc: Pc): Client
    requires IsCall(c, id)
  {
    c.(calls := c.calls[id := c.calls[id].(pc := pc)])
  }

  /** What the steps below need of a state; part of the invariant in PaymentInvariant.dfy. */
  ghost predicate Steppable(c: Client) {
    && |c.calls| <= U64_MAX
    && BudgetRuns.Sound(c.run)
    && (forall k :: k in c.returned ==> k.receipt < |c.receipts|)
    && (forall i :: 0 <= i < |c.calls| && c.calls[i].pc.ReceiptPushed? ==> i in c.run.st.pending)
  }

  /** One atomic step. An event whose task is not at that point of the code cannot happen and changes nothing. */
  ghost function Step(cfg: Config, c: Client, e: Event): Client
    requires Steppable(c)
  {
    var next := c.(run := RunAfter(cfg, c, e));
    match e
    case Claim(invoice, amount, domain, url, now) =>
      var key := Lower(invoice);
      if key in c.payments then
        (match c.payments[key]
         case None => c
         case Some(known) => c.(returned := c.returned + {known}))
      else if !cfg.supportsFeeLimit then c
      else
        (match Reserve(cfg.budget, c.run.st, amount, cfg.maxFeeSats, domain, now).1
         case Err(_) => next
         case Ok(reservation) =>
           next.(payments := c.payments[key := None],
                 calls := c.calls + [Call(invoice, key, amount, reservation.maxFeeSats, domain, url, AwaitingBackend)]))
    case WalletPays(id, payment) =>
      if IsCall(c, id) && c.calls[id].pc.AwaitingBackend? then SetPc(c, id, BackendPaid(payment)) else c
    case WalletRejects(id) =>
      if IsCall(c, id) && c.calls[id].pc.AwaitingBackend? then SetPc(c, id, BackendRefused) else c
    case WalletUncertain(id) =>
      if IsCall(c, id) && c.calls[id].pc.AwaitingBackend? then SetPc(next, id, Abandoned) else c
    case Cancel(id) =>
      if IsCall(c, id) && c.calls[id].pc.AwaitingBackend? then SetPc(next, id, Abandoned) else c
    case PushReceipt(id) =>
      if IsCall(c, id) && c.calls[id].pc.BackendPaid? then
        var p := c.calls[id].pc.payment;
        SetPc(c, id, ReceiptPushed(p, |c.receipts|)).(
          receipts := c.receipts + [Receipt(c.calls[id].url, p.amountSats, p.feeSats, p.paymentHash, p.preimage, 0)],
          pushedBy := c.pushedBy + [id])
      else c
    case SettlePayment(id, now) =>
      if IsCall(c, id) && c.calls[id].pc.ReceiptPushed? then
        var p, r := c.calls[id].pc.payment, c.calls[id].pc.receipt;
        var violation := IsViolation(c.calls[id], p);
        var settled := Settle(c.run.st, id, ChargedTotal(p), now, violation).1;
        SetPc(next, id, if violation || settled.Err? then Violated(p, r) else Charged(p, r))
      else c
    case Publish(id) =>
      if IsCall(c, id) && c.calls[id].pc.Charged? then
        var known := Known(c.calls[id].pc.payment, c.calls[id].pc.receipt);
        SetPc(c, id, Published(known.payment, known.receipt)).(
          payments := c.payments[c.calls[id].key := Some(known)],
          returned := c.returned + {known})
      else c
    case ReleaseReservation(id) =>
      if IsCall(c, id) && c.calls[id].pc.BackendRefused? then SetPc(next, id, Released) else c
    case Withdraw(id) =>
      if IsCall(c, id) && c.calls[id].pc.Released? then
        SetPc(c, id, Withdrawn).(payments := c.payments - {c.calls[id].key})
      else c
    case RecordStatus(known, status) =>
      if known in c.returned then
        c.(receipts := c.receipts[known.receipt := c.receipts[known.receipt].(responseStatus := status)])
      else c
  }
}
