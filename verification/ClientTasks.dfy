// The client as the source writes it: maps and lists behind locks, updated in
// place, one method for each stretch of code that holds a lock. A task is any
// caller of these methods, and tasks may interleave between them. Every method
// is proved to take the client through one step of PaymentModel.dfy or
// TokenRetention.dfy, so what is proved about runs of steps holds of the
// fields of this class.

module ClientTasks {
  import opened Numbers
  import opened Text
  import BudgetModel
  import opened BudgetTracker
  import opened PaymentModel
  import opened PaymentInvariant
  import PaymentTheorems
  import TokenRetention
  import opened Token

  /** What a task leaves the claiming step with. */
  datatype Claimed =
    | Settled(known: Known)
    | Fresh(reservation: BudgetModel.Reservation)

  /** What waiting for the wallet ends with. */
  datatype Answer = Paid(payment: Payment) | Failed(error: ClientError)

  /** The two errors that prove no money moved. */
  predicate ProvesUnpaid(e: ClientError) {
    e.PaymentRejected? || e.FeeLimitUnsupported?
  }

  /** How the claiming step ends: with a settled payment, a fresh reservation, or an error. */
  ghost function ClaimAnswer(cfg: Config, c: Client, e: Event): Result<Claimed, ClientError>
    requires e.Claim? && Steppable(c)
  {
    var key := Lower(e.invoice);
    if key in c.payments then
      (match c.payments[key]
       case None => Err(PaymentUncertain)
       case Some(known) => Ok(Settled(known)))
    else if !cfg.supportsFeeLimit then Err(FeeLimitUnsupported)
    else
      match BudgetModel.Reserve(cfg.budget, c.run.st, e.amountSats, cfg.maxFeeSats, e.domain, e.now).1
      case Err(error) => Err(error)
      case Ok(reservation) => Ok(Fresh(reservation))
  }

  /** The record of a fresh payment; its status is filled in once the request is answered. */
  function NewReceipt(url: string, p: Payment): Receipt {
    Receipt(url, p.amountSats, p.feeSats, p.paymentHash, p.preimage, 0)
  }

  /** The fields of the client that its tasks share. */
  datatype Fields = Fields(payments: map<string, Option<Known>>, receipts: seq<Receipt>, st: BudgetModel.TrackerState)

  /**
   * What the wallet's answer makes of a claimed invoice. A payment is receipted
   * whatever it did, and from now on known unless it broke its authorization,
   * which freezes the tracker. A confirmed rejection takes back the claim and
   * the reservation. After any other failure both stay, for good.
   */
  ghost predicate Answered(call: Call, id: U64, answer: Answer, r: Result<(Known, bool), ClientError>,
                           f: Fields, f': Fields)
  {
    match answer
    case Paid(p) =>
      && r == (if IsViolation(call, p) then Err(BackendError) else Ok((Known(p, |f.receipts|), true)))
      && f'.payments == (if r.Ok? then f.payments[call.key := Some(r.value.0)] else f.payments)
      && f'.receipts == f.receipts + [NewReceipt(call.url, p)]
      && (f'.st.frozen <==> f.st.frozen || r.Err?)
    case Failed(e) =>
      && r == Err(e)
      && f'.receipts == f.receipts
      && f'.payments == (if ProvesUnpaid(e) then f.payments - {call.key} else f.payments)
      && f'.st == if ProvesUnpaid(e) then BudgetModel.Release(f.st, id) else f.st
  }

  // ----- what `pay_challenge` promises --------------------------------------------------

  /** A payment of exactly the invoice, with a fee within what was reserved for it, is kept to the authorization. */
  ghost predicate PaymentPromise(amountSats: U64, url: string, key: string, reserved: BudgetModel.Reservation,
                                 p: Payment, r: Result<(Known, bool), ClientError>, f: Fields, f': Fields)
  {
    var known := Known(p, |f.receipts|);
    && f'.receipts == f.receipts + [Receipt(url, p.amountSats, p.feeSats, p.paymentHash, p.preimage, 0)]
    && (if p.amountSats == amountSats && p.feeSats <= reserved.maxFeeSats
        then r == Ok((known, true)) && f'.payments == f.payments[key := Some(known)] && !f'.st.frozen
        else r == Err(BackendError) && f'.payments == f.payments[key := None] && f'.st.frozen)
  }

  /**
   * Only `PaymentRejected` and `FeeLimitUnsupported` prove that no money moved:
   * they leave everything as it was, but for the reservation id that is used up.
   * Any other error leaves the invoice claimed and the money reserved.
   */
  ghost predicate FailurePromise(key: string, claimed: BudgetModel.TrackerState, e: ClientError,
                                 r: Result<(Known, bool), ClientError>, f: Fields, f': Fields)
  {
    && r == Err(e)
    && f'.receipts == f.receipts
    && match e
       case PaymentRejected => f'.payments == f.payments && f'.st == f.st.(nextId := claimed.nextId)
       case FeeLimitUnsupported => f'.payments == f.payments && f'.st == f.st.(nextId := claimed.nextId)
       case _ => f'.payments == f.payments[key := None] && f'.st == claimed
  }

  /** A known invoice is answered, one in flight is refused, and a new one is paid if it can be reserved. */
  ghost predicate Promise(
      supportsFeeLimit: bool, invoice: string, amountSats: U64, url: string, answer: Answer,
      reserving: (BudgetModel.TrackerState, Result<BudgetModel.Reservation, ClientError>),
      r: Result<(Known, bool), ClientError>, f: Fields, f': Fields)
  {
    var key := Lower(invoice);
    if key in f.payments then
      f' == f && r == (match f.payments[key] case None => Err(PaymentUncertain) case Some(known) => Ok((known, false)))
    else if !supportsFeeLimit then f' == f && r == Err(FeeLimitUnsupported)
    else
      match reserving.1
      case Err(e) => f' == f && r == Err(e)
      case Ok(reserved) =>
        match answer
        case Paid(p) => PaymentPromise(amountSats, url, key, reserved, p, r, f, f')
        case Failed(e) => FailurePromise(key, reserving.0, e, r, f, f')
  }

  /** What a claim and then an answer come to is what was promised. */
  lemma PromiseKept(amountSats: U64, url: string, call: Call, answer: Answer,
                    reserved: BudgetModel.Reservation, claimed: BudgetModel.TrackerState,
                    r: Result<(Known, bool), ClientError>, f: Fields, f': Fields)
    requires call.key !in f.payments && call.amountSats == amountSats && call.url == url
    requires call.maxFeeSats == reserved.maxFeeSats && amountSats + reserved.maxFeeSats <= U64_MAX
    requires Answered(call, reserved.id, answer, r, Fields(f.payments[call.key := None], f.receipts, claimed), f')
    requires !claimed.frozen && BudgetModel.Release(claimed, reserved.id) == f.st.(nextId := claimed.nextId)
    ensures answer.Paid? ==> PaymentPromise(amountSats, url, call.key, reserved, answer.payment, r, f, f')
    ensures answer.Failed? ==> FailurePromise(call.key, claimed, answer.error, r, f, f')
  {
  }

  // ----- the state of the model, seen from the fields of the client -------------------

  /** What the fields of the client show of a state of the model. */
  ghost predicate Shows(c: Client, payments: map<string, Option<Known>>, receipts: seq<Receipt>,
                        st: BudgetModel.TrackerState)
  {
    c.payments == payments && c.receipts == receipts && c.run.st == st
  }

  lemma SettleShows(cfg: Config, c: Client, id: nat, p: Payment, receipt: nat, now: U64)
    requires Steppable(c) && At(c, id, ReceiptPushed(p, receipt))
    requires id in c.run.held && id in c.run.st.pending
    ensures var (st, r) := BudgetModel.Settle(c.run.st, id, ChargedTotal(p), now, IsViolation(c.calls[id], p));
            && Shows(Step(cfg, c, SettlePayment(id, now)), c.payments, c.receipts, st)
            && Step(cfg, c, SettlePayment(id, now)).calls
            == SetPc(c, id, if r.Ok? then Charged(p, receipt) else Violated(p, receipt)).calls
  {
  }

  lemma ClaimRefused(cfg: Config, c: Client, e: Event)
    requires Steppable(c) && e.Claim? && !IsFreshClaim(cfg, c, e)
    ensures Shows(Step(cfg, c, e), c.payments, c.receipts, c.run.st)
  {
  }

  lemma FreshClaimShows(cfg: Config, c: Client, e: Event)
    requires Steppable(c) && IsFreshClaim(cfg, c, e)
    ensures var (st, r) := BudgetModel.Reserve(cfg.budget, c.run.st, e.amountSats, cfg.maxFeeSats, e.domain, e.now);
            Shows(Step(cfg, c, e), if r.Ok? then c.payments[Lower(e.invoice) := None] else c.payments, c.receipts, st)
  {
  }

  /** A known invoice is answered with the payment that was made for it. */
  lemma {:induction false} ClaimsAnswerForTheirInvoice(cfg: Config, events: seq<Event>, claim: Event, known: Known)
    requires claim.Claim? && Steppable(Exec(cfg, events))
    requires ClaimAnswer(cfg, Exec(cfg, events), claim) == Ok(Settled(known))
    ensures PaymentTheorems.PaidFor(Exec(cfg, events), known, Lower(claim.invoice))
  {
    PaymentTheorems.ShownPaymentIsForItsInvoice(cfg, events, Lower(claim.invoice), "");
  }

  // ----- one task after its await ------------------------------------------------------

  /** Call `id` is `call`, now at `pc`, and its next step can be taken. */
  ghost predicate Ready(c: Client, id: nat, call: Call, pc: Pc) {
    Steppable(c) && IsCall(c, id) && c.calls[id] == call.(pc := pc)
  }

  /** The payment can be charged to a live reservation, and the charge is refused exactly for a violation. */
  ghost predicate CanSettle(cfg: Config, c: Client, id: nat, call: Call, p: Payment, receipt: nat, now: U64) {
    && Ready(c, id, call, ReceiptPushed(p, receipt)) && id in c.run.held
    && Ready(Step(cfg, c, SettlePayment(id, now)), id, call,
             if IsViolation(call, p) then Violated(p, receipt) else Charged(p, receipt))
  }

  ghost predicate CanPush(cfg: Config, c: Client, id: nat, call: Call, p: Payment, now: U64) {
    && Ready(c, id, call, BackendPaid(p))
    && CanSettle(cfg, Step(cfg, c, PushReceipt(id)), id, call, p, |c.receipts|, now)
  }

  /** Once paid, a payment can be receipted, charged, and published unless it broke its authorization. */
  ghost predicate CanFinishPaid(cfg: Config, c: Client, id: nat, call: Call, p: Payment, now: U64) {
    && Ready(c, id, call, AwaitingBackend)
    && Shows(Step(cfg, c, WalletPays(id, p)), c.payments, c.receipts, c.run.st)
    && CanPush(cfg, Step(cfg, c, WalletPays(id, p)), id, call, p, now)
  }

  ghost predicate CanRelease(cfg: Config, c: Client, id: nat, call: Call) {
    && Ready(c, id, call, BackendRefused) && id in c.run.held
    && Ready(Step(cfg, c, ReleaseReservation(id)), id, call, Released)
  }

  /** Once refused, a payment can have its reservation released and its claim withdrawn. */
  ghost predicate CanFinishRefused(cfg: Config, c: Client, id: nat, call: Call) {
    && Ready(c, id, call, AwaitingBackend)
    && Shows(Step(cfg, c, WalletRejects(id)), c.payments, c.receipts, c.run.st)
    && CanRelease(cfg, Step(cfg, c, WalletRejects(id)), id, call)
  }

  ghost function AfterPaid(cfg: Config, c: Client, id: nat, call: Call, p: Payment, now: U64): Client
    requires CanFinishPaid(cfg, c, id, call, p, now)
  {
    var settled := Step(cfg, Step(cfg, Step(cfg, c, WalletPays(id, p)), PushReceipt(id)), SettlePayment(id, now));
    if IsViolation(call, p) then settled else Step(cfg, settled, Publish(id))
  }

  ghost function AfterRefused(cfg: Config, c: Client, id: nat, call: Call): Client
    requires CanFinishRefused(cfg, c, id, call)
  {
    Step(cfg, Step(cfg, Step(cfg, c, WalletRejects(id)), ReleaseReservation(id)), Withdraw(id))
  }

  lemma StepReady(cfg: Config, c: Client, e: Event)
    requires Inv(cfg, c)
    ensures Steppable(c) && Inv(cfg, Step(cfg, c, e)) && Steppable(Step(cfg, c, e))
  {
    StepKeeps(cfg, c, e);
    LinksAreSteppable(Step(cfg, c, e));
  }

  lemma HoldersHaveTokens(c: Client, id: nat)
    requires Links(c) && IsCall(c, id) && c.calls[id].pc.HoldsToken()
    ensures id in c.run.held
  {
    assert TokenOk(c.run, id, c.calls[id]);
  }

  lemma SettleCanFinish(cfg: Config, c: Client, id: nat, call: Call, p: Payment, receipt: nat, now: U64)
    requires Inv(cfg, c) && Ready(c, id, call, ReceiptPushed(p, receipt))
    ensures CanSettle(cfg, c, id, call, p, receipt, now)
  {
    HoldersHaveTokens(c, id);
    StepReady(cfg, c, SettlePayment(id, now));
    AuthorizedSettles(c, id);
    SettleStep(cfg, c, id, now);
  }

  lemma PushMoves(cfg: Config, c: Client, id: nat, call: Call, p: Payment)
    requires Ready(c, id, call, BackendPaid(p))
    ensures IsCall(Step(cfg, c, PushReceipt(id)), id)
    ensures Step(cfg, c, PushReceipt(id)).calls[id] == call.(pc := ReceiptPushed(p, |c.receipts|))
  {
  }

  lemma PushCanFinish(cfg: Config, c: Client, id: nat, call: Call, p: Payment, now: U64)
    requires Inv(cfg, c) && Ready(c, id, call, BackendPaid(p))
    ensures CanPush(cfg, c, id, call, p, now)
  {
    PushMoves(cfg, c, id, call, p);
    StepReady(cfg, c, PushReceipt(id));
    SettleCanFinish(cfg, Step(cfg, c, PushReceipt(id)), id, call, p, |c.receipts|, now);
  }

  lemma AnswerMoves(cfg: Config, c: Client, id: nat, call: Call, p: Payment)
    requires Ready(c, id, call, AwaitingBackend)
    ensures Step(cfg, c, WalletPays(id, p)) == SetPc(c, id, BackendPaid(p))
    ensures Step(cfg, c, WalletRejects(id)) == SetPc(c, id, BackendRefused)
  {
  }

  /** In every state of a run, a task whose payment went through finds everything it needs to finish. */
  lemma PaidCanFinish(cfg: Config, c: Client, id: nat, call: Call, p: Payment, now: U64)
    requires Inv(cfg, c) && Ready(c, id, call, AwaitingBackend)
    ensures CanFinishPaid(cfg, c, id, call, p, now)
  {
    AnswerMoves(cfg, c, id, call, p);
    StepReady(cfg, c, WalletPays(id, p));
    PushCanFinish(cfg, Step(cfg, c, WalletPays(id, p)), id, call, p, now);
  }

  lemma ReleaseMoves(cfg: Config, c: Client, id: nat, call: Call)
    requires Ready(c, id, call, BackendRefused)
    ensures IsCall(Step(cfg, c, ReleaseReservation(id)), id)
    ensures Step(cfg, c, ReleaseReservation(id)).calls[id] == call.(pc := Released)
  {
  }

  lemma ReleaseCanFinish(cfg: Config, c: Client, id: nat, call: Call)
    requires Inv(cfg, c) && Ready(c, id, call, BackendRefused)
    ensures CanRelease(cfg, c, id, call)
  {
    HoldersHaveTokens(c, id);
    StepReady(cfg, c, ReleaseReservation(id));
    ReleaseMoves(cfg, c, id, call);
  }

  /** So does a task whose payment was refused. */
  lemma RefusedCanFinish(cfg: Config, c: Client, id: nat, call: Call)
    requires Inv(cfg, c) && Ready(c, id, call, AwaitingBackend)
    ensures CanFinishRefused(cfg, c, id, call)
  {
    AnswerMoves(cfg, c, id, call, Payment("", "", 0, 0));
    StepReady(cfg, c, WalletRejects(id));
    ReleaseCanFinish(cfg, Step(cfg, c, WalletRejects(id)), id, call);
  }

  ghost predicate CanFinish(cfg: Config, c: Client, id: nat, call: Call, answer: Answer, now: U64) {
    match answer
    case Paid(p) => CanFinishPaid(cfg, c, id, call, p, now)
    case Failed(_) => CanFinishRefused(cfg, c, id, call)
  }

  /** The call that a claim starts when it is granted the given fee. */
  function NewCall(claim: Event, maxFeeSats: U64): Call
    requires claim.Claim?
  {
    Call(claim.invoice, Lower(claim.invoice), claim.amountSats, maxFeeSats, claim.domain, claim.url, AwaitingBackend)
  }

  /** A claim that goes through can be finished with the given answer. */
  ghost predicate CanPay(cfg: Config, c: Client, claim: Event, answer: Answer, now: U64) {
    && claim.Claim? && Steppable(c)
    && forall r :: ClaimAnswer(cfg, c, claim) == Ok(Fresh(r)) ==>
         CanFinish(cfg, Step(cfg, c, claim), r.id, NewCall(claim, r.maxFeeSats), answer, now)
  }

  ghost function AfterAnswer(cfg: Config, c: Client, id: nat, call: Call, answer: Answer, now: U64): Client
    requires CanFinish(cfg, c, id, call, answer, now)
  {
    match answer
    case Paid(p) => AfterPaid(cfg, c, id, call, p, now)
    case Failed(e) => if ProvesUnpaid(e) then AfterRefused(cfg, c, id, call) else Step(cfg, c, WalletUncertain(id))
  }

  /** The steps one task takes through `pay_challenge` with the given answer. */
  ghost function AfterPay(cfg: Config, c: Client, claim: Event, answer: Answer, now: U64): Client
    requires CanPay(cfg, c, claim, answer, now)
  {
    match ClaimAnswer(cfg, c, claim)
    case Ok(Fresh(r)) => AfterAnswer(cfg, Step(cfg, c, claim), r.id, NewCall(claim, r.maxFeeSats), answer, now)
    case _ => Step(cfg, c, claim)
  }

  lemma AfterPaidKeeps(cfg: Config, c: Client, id: nat, call: Call, p: Payment, now: U64)
    requires Inv(cfg, c) && CanFinishPaid(cfg, c, id, call, p, now)
    ensures Inv(cfg, AfterPaid(cfg, c, id, call, p, now))
  {
    var paid := Step(cfg, c, WalletPays(id, p));
    StepKeeps(cfg, c, WalletPays(id, p));
    StepKeeps(cfg, paid, PushReceipt(id));
    SettledKeeps(cfg, Step(cfg, paid, PushReceipt(id)), id, now);
  }

  lemma SettledKeeps(cfg: Config, c: Client, id: nat, now: U64)
    requires Inv(cfg, c)
    ensures Steppable(c) && Steppable(Step(cfg, c, SettlePayment(id, now)))
    ensures Inv(cfg, Step(cfg, c, SettlePayment(id, now)))
    ensures Inv(cfg, Step(cfg, Step(cfg, c, SettlePayment(id, now)), Publish(id)))
  {
    StepKeeps(cfg, c, SettlePayment(id, now));
    StepKeeps(cfg, Step(cfg, c, SettlePayment(id, now)), Publish(id));
  }

  lemma AfterRefusedKeeps(cfg: Config, c: Client, id: nat, call: Call)
    requires Inv(cfg, c) && CanFinishRefused(cfg, c, id, call)
    ensures Inv(cfg, AfterRefused(cfg, c, id, call))
  {
    var refused := Step(cfg, c, WalletRejects(id));
    StepKeeps(cfg, c, WalletRejects(id));
    StepKeeps(cfg, refused, ReleaseReservation(id));
    StepKeeps(cfg, Step(cfg, refused, ReleaseReservation(id)), Withdraw(id));
  }

  lemma AnsweringKeeps(cfg: Config, c: Client, id: nat, call: Call, answer: Answer, now: U64)
    requires Inv(cfg, c) && CanFinish(cfg, c, id, call, answer, now)
    ensures Inv(cfg, AfterAnswer(cfg, c, id, call, answer, now))
  {
    if answer.Paid? {
      AfterPaidKeeps(cfg, c, id, call, answer.payment, now);
    } else if ProvesUnpaid(answer.error) {
      AfterRefusedKeeps(cfg, c, id, call);
    } else {
      StepKeeps(cfg, c, WalletUncertain(id));
    }
  }

  /** The state a payment leaves is again one that meets the invariant of all runs. */
  lemma PayingKeeps(cfg: Config, c: Client, claim: Event, answer: Answer, now: U64)
    requires Inv(cfg, c) && claim.Claim? && CanPay(cfg, c, claim, answer, now)
    ensures Inv(cfg, AfterPay(cfg, c, claim, answer, now))
  {
    StepKeeps(cfg, c, claim);
    match ClaimAnswer(cfg, c, claim)
    case Ok(Fresh(r)) => AnsweringKeeps(cfg, Step(cfg, c, claim), r.id, NewCall(claim, r.maxFeeSats), answer, now);
    case _ =>
  }

  lemma ClaimMoves(cfg: Config, c: Client, claim: Event, r: BudgetModel.Reservation)
    requires Links(c) && Steppable(c) && claim.Claim? && ClaimAnswer(cfg, c, claim) == Ok(Fresh(r))
    ensures Step(cfg, c, claim).calls == c.calls + [NewCall(claim, r.maxFeeSats)] && r.id == |c.calls|
  {
  }

  /** In every state of a run, a task that wants to pay finds everything it needs to the end. */
  lemma ClaimsCanFinish(cfg: Config, c: Client, claim: Event, answer: Answer, now: U64)
    requires Inv(cfg, c) && claim.Claim?
    ensures CanPay(cfg, c, claim, answer, now)
  {
    StepReady(cfg, c, claim);
    forall r | ClaimAnswer(cfg, c, claim) == Ok(Fresh(r))
      ensures CanFinish(cfg, Step(cfg, c, claim), r.id, NewCall(claim, r.maxFeeSats), answer, now)
    {
      ClaimMoves(cfg, c, claim, r);
      match answer
      case Paid(p) => PaidCanFinish(cfg, Step(cfg, c, claim), r.id, NewCall(claim, r.maxFeeSats), p, now);
      case Failed(_) => RefusedCanFinish(cfg, Step(cfg, c, claim), r.id, NewCall(claim, r.maxFeeSats));
    }
  }

  class L402Client {
    const config: Config
    const tracker: Tracker
    var payments: map<string, Option<Known>>
    var receipts: seq<Receipt>
    var unpersisted: map<string, L402Token>
    ghost var history: Client
    ghost var retention: TokenRetention.State

    /** The fields are those of the state that the steps so far lead to. */
    ghost predicate Valid()
      reads this, tracker, tracker.Ledgers()
    {
      && tracker.Valid() && tracker.budget == config.budget
      && Shows(history, payments, receipts, tracker.State())
      && retention.unpersisted == unpersisted
    }

    constructor (config: Config)
      ensures Valid() && this.config == config
      ensures history == NEW_CLIENT && retention == TokenRetention.NEW
      ensures fresh(tracker) && fresh(tracker.Ledgers())
    {
      this.config := config;
      tracker := new Tracker(config.budget);
      payments, receipts, unpersisted := map[], [], map[];
      history, retention := NEW_CLIENT, TokenRetention.NEW;
    }

    // ----- claiming -----------------------------------------------------------

    /** Reserve, and claim the key if that succeeds. */
    method ReserveKey(key: string, amountSats: U64, domain: Option<string>, now: U64)
        returns (r: Result<BudgetModel.Reservation, ClientError>)
      requires tracker.Valid()
      modifies this`payments, tracker`pending, tracker`nextId
      ensures tracker.Valid()
      ensures payments == if r.Ok? then old(payments)[key := None] else old(payments)
      ensures (tracker.State(), r)
           == BudgetModel.Reserve(tracker.budget, old(tracker.State()), amountSats, config.maxFeeSats, domain, now)
    {
      r := tracker.ReserveAt(amountSats, config.maxFeeSats, domain, now);
      if r.Ok? {
        payments := payments[key := None];
      }
    }

    /** Check the invoice, reserve and claim it, all under the payments lock. */
    method Claim(invoice: string, amountSats: U64, domain: Option<string>, url: string, now: U64)
        returns (r: Result<Claimed, ClientError>)
      requires Valid() && Steppable(history)
      modifies this`payments, this`history, tracker`pending, tracker`nextId
      ensures Valid()
      ensures history == Step(config, old(history), PaymentModel.Claim(invoice, amountSats, domain, url, now))
      ensures r == ClaimAnswer(config, old(history), PaymentModel.Claim(invoice, amountSats, domain, url, now))
      ensures receipts == old(receipts)
      ensures payments == if r.Ok? && r.value.Fresh? then old(payments)[Lower(invoice) := None] else old(payments)
      ensures tracker.State() == (if r.Ok? && r.value.Fresh?
                                  then BudgetModel.Reserve(config.budget, old(tracker.State()), amountSats,
                                                           config.maxFeeSats, domain, now).0
                                  else old(tracker.State()))
    {
      var key := Lower(invoice);
      ghost var claim := PaymentModel.Claim(invoice, amountSats, domain, url, now);
      if key in payments {
        ClaimRefused(config, history, claim);
        r := if payments[key].None? then Err(PaymentUncertain) else Ok(Settled(payments[key].value));
      } else if !config.supportsFeeLimit {
        ClaimRefused(config, history, claim);
        r := Err(FeeLimitUnsupported);
      } else {
        FreshClaimShows(config, history, claim);
        var reservation := ReserveKey(key, amountSats, domain, now);
        r := if reservation.Ok? then Ok(Fresh(reservation.value)) else Err(reservation.error);
      }
      history := Step(config, history, claim);
    }

    // ----- a payment went through ------------------------------------------------

    /** The receipt is kept before anything can fail, and its place is final. */
    method PushReceipt(url: string, payment: Payment, ghost id: nat) returns (index: nat)
      requires Valid() && Steppable(history)
      requires At(history, id, BackendPaid(payment)) && history.calls[id].url == url
      modifies this`receipts, this`history
      ensures Valid()
      ensures history == Step(config, old(history), PaymentModel.PushReceipt(id))
      ensures At(history, id, ReceiptPushed(payment, index))
      ensures index == |old(receipts)|
      ensures receipts == old(receipts) + [NewReceipt(url, payment)]
    {
      index := |receipts|;
      receipts := receipts + [NewReceipt(url, payment)];
      history := Step(config, history, PaymentModel.PushReceipt(id));
    }

    /** Judge the payment and settle it with the tracker. */
    method JudgeAndSettle(reservation: BudgetModel.Reservation, amountSats: U64, payment: Payment, now: U64,
                          ghost call: Call)
        returns (r: Result<(), ClientError>)
      requires tracker.Valid() && reservation.id in tracker.pending
      requires call.amountSats == amountSats && call.maxFeeSats == reservation.maxFeeSats
      modifies tracker, tracker.Ledgers()
      ensures tracker.Valid() && fresh(tracker.Ledgers() - old(tracker.Ledgers()))
      ensures var (st, settled) := BudgetModel.Settle(old(tracker.State()), reservation.id, ChargedTotal(payment), now,
                                                      IsViolation(call, payment));
              tracker.State() == st && (r.Ok? <==> settled.Ok?)
    {
      var total := CheckedAdd(payment.amountSats, payment.feeSats);
      var violation := payment.amountSats != amountSats || payment.feeSats > reservation.maxFeeSats || total.None?;
      assert total.GetOr(U64_MAX) == ChargedTotal(payment) && violation == IsViolation(call, payment);
      r := tracker.SettleAt(reservation, total.GetOr(U64_MAX), now, violation);
      if violation {
        r := Err(BackendError);
      }
    }

    /** Charge the payment; the reservation is live whatever the other tasks did. */
    method SettlePayment(reservation: BudgetModel.Reservation, amountSats: U64, payment: Payment, now: U64,
                         ghost receipt: nat)
        returns (r: Result<(), ClientError>)
      requires Valid() && Steppable(history) && reservation.id in history.run.held
      requires At(history, reservation.id, ReceiptPushed(payment, receipt))
      requires history.calls[reservation.id].amountSats == amountSats
      requires history.calls[reservation.id].maxFeeSats == reservation.maxFeeSats
      modifies this`history, tracker, tracker.Ledgers()
      ensures Valid() && fresh(tracker.Ledgers() - old(tracker.Ledgers()))
      ensures history == Step(config, old(history), PaymentModel.SettlePayment(reservation.id, now))
      ensures tracker.frozen == (old(tracker.frozen) || r.Err?)
      ensures At(history, reservation.id, if r.Ok? then Charged(payment, receipt) else Violated(payment, receipt))
    {
      SettleShows(config, history, reservation.id, payment, receipt, now);
      r := JudgeAndSettle(reservation, amountSats, payment, now, history.calls[reservation.id]);
      history := Step(config, history, PaymentModel.SettlePayment(reservation.id, now));
    }

    method Publish(key: string, known: Known, ghost id: nat)
      requires Valid() && Steppable(history)
      requires At(history, id, Charged(known.payment, known.receipt)) && history.calls[id].key == key
      modifies this`payments, this`history
      ensures Valid()
      ensures history == Step(config, old(history), PaymentModel.Publish(id))
      ensures payments == old(payments)[key := Some(known)]
    {
      payments := payments[key := Some(known)];
      history := Step(config, history, PaymentModel.Publish(id));
    }

    // ----- a payment was refused ---------------------------------------------------

    method ReleaseReservation(reservation: BudgetModel.Reservation)
      requires Valid() && Steppable(history) && reservation.id in history.run.held
      requires At(history, reservation.id, BackendRefused)
      modifies this`history, tracker`pending
      ensures Valid()
      ensures history == Step(config, old(history), PaymentModel.ReleaseReservation(reservation.id))
      ensures tracker.State() == BudgetModel.Release(old(tracker.State()), reservation.id)
    {
      tracker.Release(reservation);
      history := Step(config, history, PaymentModel.ReleaseReservation(reservation.id));
    }

    method Withdraw(key: string, ghost id: nat)
      requires Valid() && Steppable(history)
      requires At(history, id, Released) && history.calls[id].key == key
      modifies this`payments, this`history
      ensures Valid()
      ensures history == Step(config, old(history), PaymentModel.Withdraw(id))
      ensures payments == old(payments) - {key}
    {
      payments := payments - {key};
      history := Step(config, history, PaymentModel.Withdraw(id));
    }

    // ----- a task after its await ----------------------------------------------------

    /** The wallet's answer reaches the task; nothing else sees it yet. */
    ghost method HearPaid(id: nat, payment: Payment)
      requires Valid() && Steppable(history)
      requires Shows(Step(config, history, WalletPays(id, payment)), history.payments, history.receipts, history.run.st)
      modifies this`history
      ensures Valid() && history == Step(config, old(history), WalletPays(id, payment))
    {
      history := Step(config, history, WalletPays(id, payment));
    }

    /** Everything after a successful payment: receipt, charge and, unless it broke its authorization, publication. */
    method FinishPaid(reservation: BudgetModel.Reservation, call: Call, payment: Payment, now: U64)
        returns (r: Result<Known, ClientError>)
      requires Valid() && CanFinish(config, history, reservation.id, call, Paid(payment), now)
      requires call.maxFeeSats == reservation.maxFeeSats
      modifies this`payments, this`receipts, this`history, tracker, tracker.Ledgers()
      ensures Valid()
      ensures history == AfterAnswer(config, old(history), reservation.id, call, Paid(payment), now)
      ensures receipts == old(receipts) + [NewReceipt(call.url, payment)]
      ensures r == if IsViolation(call, payment) then Err(BackendError) else Ok(Known(payment, |old(receipts)|))
      ensures payments == if r.Ok? then old(payments)[call.key := Some(r.value)] else old(payments)
      ensures tracker.frozen == (old(tracker.frozen) || r.Err?)
    {
      ghost var id := reservation.id;
      HearPaid(id, payment);
      var index := PushReceipt(call.url, payment, id);
      var settlement := SettlePayment(reservation, call.amountSats, payment, now, index);
      if settlement.Err? {
        return Err(BackendError);
      }
      Publish(call.key, Known(payment, index), id);
      return Ok(Known(payment, index));
    }

    /** After a confirmed rejection the reservation is gone and the invoice can be tried again. */
    method FinishRefused(reservation: BudgetModel.Reservation, call: Call)
      requires Valid() && CanFinishRefused(config, history, reservation.id, call)
      modifies this`payments, this`history, tracker`pending
      ensures Valid() && receipts == old(receipts)
      ensures history == AfterRefused(config, old(history), reservation.id, call)
      ensures payments == old(payments) - {call.key}
      ensures tracker.State() == BudgetModel.Release(old(tracker.State()), reservation.id)
    {
      history := Step(config, history, WalletRejects(reservation.id));
      ReleaseReservation(reservation);
      Withdraw(call.key, reservation.id);
    }

    /** After any other error the task only forgets its reservation token: invoice and reservation stay taken. */
    ghost method GiveUp(id: nat, call: Call)
      requires Valid() && Ready(history, id, call, AwaitingBackend)
      modifies this`history
      ensures Valid() && history == Step(config, old(history), WalletUncertain(id))
    {
      history := Step(config, history, WalletUncertain(id));
    }

    ghost function Shared(): Fields
      reads this, tracker, tracker.Ledgers()
    {
      Fields(payments, receipts, tracker.State())
    }

    /** A failed answer: only the two errors that prove no money moved undo the claim. */
    method FinishFailed(reservation: BudgetModel.Reservation, call: Call, error: ClientError, ghost now: U64)
      requires Valid() && CanFinish(config, history, reservation.id, call, Failed(error), now)
      modifies this`payments, this`history, tracker`pending
      ensures Valid()
      ensures history == AfterAnswer(config, old(history), reservation.id, call, Failed(error), now)
      ensures payments == if ProvesUnpaid(error) then old(payments) - {call.key} else old(payments)
      ensures ProvesUnpaid(error) ==> tracker.State() == BudgetModel.Release(old(tracker.State()), reservation.id)
    {
      if ProvesUnpaid(error) {
        FinishRefused(reservation, call);
      } else {
        GiveUp(reservation.id, call);
      }
    }

    /** What a task that claimed its invoice does with the wallet's answer. */
    method Conclude(reservation: BudgetModel.Reservation, call: Call, answer: Answer, now: U64)
        returns (r: Result<(Known, bool), ClientError>)
      requires Valid() && CanFinish(config, history, reservation.id, call, answer, now)
      requires call.maxFeeSats == reservation.maxFeeSats
      modifies this`payments, this`receipts, this`history, tracker, tracker.Ledgers()
      ensures Valid()
      ensures history == AfterAnswer(config, old(history), reservation.id, call, answer, now)
      ensures Answered(call, reservation.id, answer, r, old(Shared()), Shared())
    {
      match answer
      case Paid(payment) =>
        var known := FinishPaid(reservation, call, payment, now);
        r := if known.Ok? then Ok((known.value, true)) else Err(known.error);
      case Failed(error) =>
        FinishFailed(reservation, call, error, now);
        r := Err(error);
    }

    /** The whole of `pay_challenge` for a task that no other task comes between. */
    method PayChallenge(invoice: string, amountSats: U64, domain: Option<string>, url: string,
                        answer: Answer, now: U64, settleNow: U64)
        returns (r: Result<(Known, bool), ClientError>)
      requires Valid()
      requires CanPay(config, history, PaymentModel.Claim(invoice, amountSats, domain, url, now), answer, settleNow)
      modifies this`payments, this`receipts, this`history, tracker, tracker.Ledgers()
      ensures Valid()
      ensures var claim := PaymentModel.Claim(invoice, amountSats, domain, url, now);
              history == AfterPay(config, old(history), claim, answer, settleNow)
      ensures Promise(config.supportsFeeLimit, invoice, amountSats, url, answer,
                      BudgetModel.Reserve(config.budget, old(tracker.State()), amountSats, config.maxFeeSats, domain,
                                          now),
                      r, old(Shared()), Shared())
    {
      var claimed := Claim(invoice, amountSats, domain, url, now);
      if claimed.Err? {
        r := Err(claimed.error);
      } else if claimed.value.Settled? {
        r := Ok((claimed.value.known, false));
      } else {
        var reservation := claimed.value.reservation;
        var call := Call(invoice, Lower(invoice), amountSats, reservation.maxFeeSats, domain, url, AwaitingBackend);
        BudgetModel.ReserveThenRelease(config.budget, old(tracker.State()), amountSats, config.maxFeeSats, domain, now);
        BudgetModel.GrantFits(config.budget, old(tracker.State()), amountSats, config.maxFeeSats, domain, now);
        ghost var claimedState := tracker.State();
        r := Conclude(reservation, call, answer, settleNow);
        PromiseKept(amountSats, url, call, answer, reservation, claimedState, r, old(Shared()), Shared());
      }
    }

    // ----- the answer to the request --------------------------------------------------

    /** The receipt of a payment that was handed back is where its index says. */
    method RecordStatus(known: Known, status: nat) returns (receipt: Receipt)
      requires Valid() && Steppable(history) && known in history.returned
      modifies this`receipts, this`history
      ensures Valid()
      ensures history == Step(config, old(history), PaymentModel.RecordStatus(known, status))
      ensures known.receipt < |receipts| && receipt == receipts[known.receipt]
    {
      receipt := receipts[known.receipt].(responseStatus := status);
      receipts := receipts[known.receipt := receipt];
      history := Step(config, history, PaymentModel.RecordStatus(known, status));
    }

    // ----- tokens that are not stored yet -----------------------------------------------

    method RetainToken(url: string, token: L402Token)
      requires Valid()
      modifies this`unpersisted, this`retention
      ensures Valid()
      ensures retention == TokenRetention.Step(old(retention), TokenRetention.Retain(url, token))
    {
      unpersisted := unpersisted[url := token];
      retention := TokenRetention.Step(retention, TokenRetention.Retain(url, token));
    }

    /** The put of one task returned: drop the token unless another one took its place. */
    method ConfirmStored(url: string, token: L402Token, ghost task: nat)
      requires Valid() && TokenRetention.AtPc(retention, task, TokenRetention.Stored)
      requires retention.tasks[task].url == url && retention.tasks[task].token == token
      modifies this`unpersisted, this`retention
      ensures Valid()
      ensures retention == TokenRetention.Step(old(retention), TokenRetention.Confirm(task))
    {
      if url in unpersisted
         && unpersisted[url].macaroon == token.macaroon && unpersisted[url].preimage == token.preimage
      {
        unpersisted := unpersisted - {url};
      }
      retention := TokenRetention.Step(retention, TokenRetention.Confirm(task));
    }

    method ForgetToken(url: string)
      requires Valid()
      modifies this`unpersisted, this`retention
      ensures Valid()
      ensures retention == TokenRetention.Step(old(retention), TokenRetention.Reject(url))
    {
      unpersisted := unpersisted - {url};
      retention := TokenRetention.Step(retention, TokenRetention.Reject(url));
    }
  }
}
