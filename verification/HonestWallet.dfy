// Real money, in millisatoshis: what a run can cost when the wallet pays
// exactly the invoice and a fee within the cap it was given.

module HonestWallet {
  import opened Numbers
  import opened Sums
  import opened Bolt11
  import BudgetModel
  import BudgetRuns
  import opened PaymentModel
  import opened PaymentInvariant
  import PaymentTheorems
  import WalletAdapters

  /** The millisatoshis an invoice asks for; zero if the client would not pay it. */
  function Msat(invoice: string): U64 {
    match Decode(invoice)
    case Ok(Some(amount)) => amount.millisatoshis
    case _ => 0
  }

  /** `request` claims an invoice with its decoded amount, rounded up. */
  predicate AsDecoded(invoice: string, amountSats: U64) {
    Decode(invoice).Ok? && Decode(invoice).value.Some? && amountSats == Decode(invoice).value.value.Satoshis()
  }

  /** `moved` millisatoshis left the wallet for this call, no more than it was allowed to spend. */
  predicate WithinOrder(call: Call, moved: nat) {
    moved <= Msat(call.invoice) + WalletAdapters.MaxFeeMsat(call.maxFeeSats)
  }

  /** The wallet paid the invoice and a fee within the cap, and reports both rounded up. */
  predicate HonestPayment(call: Call, p: Payment, moved: nat) {
    && Msat(call.invoice) <= moved
    && WithinOrder(call, moved)
    && p.amountSats == CeilDiv(Msat(call.invoice), 1000)
    && p.feeSats == CeilDiv(moved - Msat(call.invoice), 1000)
  }

  predicate HonestEvent(c: Client, e: Event, moved: nat -> nat) {
    match e
    case Claim(invoice, amountSats, _, _, _) => AsDecoded(invoice, amountSats)
    case WalletPays(id, p) =>
      IsCall(c, id) && c.calls[id].pc.AwaitingBackend? ==> HonestPayment(c.calls[id], p, moved(id))
    case _ => true
  }

  /** Every claim and every reported payment of the run is honest. */
  ghost predicate HonestRun(cfg: Config, events: seq<Event>, moved: nat -> nat) {
    events == [] || (
      && HonestRun(cfg, events[..|events| - 1], moved)
      && HonestEvent(Exec(cfg, events[..|events| - 1]), events[|events| - 1], moved))
  }

  // ----- an honest wallet never violates ---------------------------------------

  predicate HonestCall(call: Call, moved: nat) {
    && AsDecoded(call.invoice, call.amountSats)
    && (call.pc.Paid() ==> HonestPayment(call, call.pc.payment, moved))
  }

  ghost predicate HonestCalls(calls: seq<Call>, moved: nat -> nat) {
    forall i :: 0 <= i < |calls| ==> HonestCall(calls[i], moved(i))
  }

  lemma CeilWithin(x: nat, sats: nat)
    requires x <= 1000 * sats
    ensures CeilDiv(x, 1000) <= sats
  {
  }

  /**
   * Rounding both parts up never makes an honest payment look like a violation,
   * and charges at least what it cost and less than two sats more.
   */
  lemma HonestIsNoViolation(call: Call, p: Payment, moved: nat)
    requires CallOk(call) && AsDecoded(call.invoice, call.amountSats) && HonestPayment(call, p, moved)
    ensures !IsViolation(call, p)
    ensures moved <= 1000 * ChargedTotal(p) < moved + 2000
  {
    CeilWithin(moved - Msat(call.invoice), call.maxFeeSats);
  }

  lemma HonestStepCall(cfg: Config, c: Client, e: Event, moved: nat -> nat, i: nat)
    requires Steppable(c) && HonestEvent(c, e, moved) && IsCall(c, i) && HonestCall(c.calls[i], moved(i))
    ensures IsCall(Step(cfg, c, e), i) && HonestCall(Step(cfg, c, e).calls[i], moved(i))
  {
    if e.WalletPays? {
      HonestAnswer(cfg, c, e.id, e.payment, moved, i);
    } else {
      OtherSteps(cfg, c, e, moved(i), i);
    }
  }

  lemma HonestAnswer(cfg: Config, c: Client, id: nat, p: Payment, moved: nat -> nat, i: nat)
    requires Steppable(c) && HonestEvent(c, WalletPays(id, p), moved)
    requires IsCall(c, i) && HonestCall(c.calls[i], moved(i))
    ensures IsCall(Step(cfg, c, WalletPays(id, p)), i) && HonestCall(Step(cfg, c, WalletPays(id, p)).calls[i], moved(i))
  {
  }

  /** Only the wallet's answer makes a call paid. */
  lemma PaidBefore(cfg: Config, c: Client, e: Event, i: nat)
    requires Steppable(c) && !e.WalletPays? && IsCall(c, i)
    ensures IsCall(Step(cfg, c, e), i) && (Step(cfg, c, e).calls[i].pc.Paid() ==> c.calls[i].pc.Paid())
  {
  }

  lemma OtherSteps(cfg: Config, c: Client, e: Event, moved: nat, i: nat)
    requires Steppable(c) && !e.WalletPays? && IsCall(c, i) && HonestCall(c.calls[i], moved)
    ensures IsCall(Step(cfg, c, e), i) && HonestCall(Step(cfg, c, e).calls[i], moved)
  {
    PaidBefore(cfg, c, e, i);
    PaymentTheorems.StepContinuesAt(cfg, c, e, i);
  }

  lemma HonestNewCall(cfg: Config, c: Client, e: Event, moved: nat -> nat, i: nat)
    requires Steppable(c) && HonestEvent(c, e, moved) && |c.calls| <= i < |Step(cfg, c, e).calls|
    ensures HonestCall(Step(cfg, c, e).calls[i], moved(i))
  {
    OnlyClaimsAdd(cfg, c, e);
    FreshClaimStep(cfg, c, e);
  }

  lemma OnlyClaimsAdd(cfg: Config, c: Client, e: Event)
    requires Steppable(c) && |Step(cfg, c, e).calls| > |c.calls|
    ensures IsFreshClaim(cfg, c, e)
  {
  }

  lemma HonestStep(cfg: Config, c: Client, e: Event, moved: nat -> nat)
    requires Steppable(c) && HonestCalls(c.calls, moved) && HonestEvent(c, e, moved)
    ensures HonestCalls(Step(cfg, c, e).calls, moved)
  {
    forall i | 0 <= i < |Step(cfg, c, e).calls| ensures HonestCall(Step(cfg, c, e).calls[i], moved(i)) {
      if i < |c.calls| {
        HonestStepCall(cfg, c, e, moved, i);
      } else {
        HonestNewCall(cfg, c, e, moved, i);
      }
    }
  }

  lemma {:induction false} HonestRunKeeps(cfg: Config, events: seq<Event>, moved: nat -> nat)
    requires HonestRun(cfg, events, moved)
    ensures HonestCalls(Exec(cfg, events).calls, moved)
  {
    if events == [] {
    } else {
      var init := events[..|events| - 1];
      HonestRunKeeps(cfg, init, moved);
      ExecSteppable(cfg, init);
      HonestStep(cfg, Exec(cfg, init), events[|events| - 1], moved);
    }
  }

  ghost predicate NoneViolated(calls: seq<Call>) {
    forall i :: 0 <= i < |calls| ==> !calls[i].pc.Violated?
  }

  lemma HonestNoneViolated(c: Client, moved: nat -> nat)
    requires Links(c) && HonestCalls(c.calls, moved)
    ensures NoneViolated(c.calls) && !c.run.st.frozen
  {
    forall i | 0 <= i < |c.calls| ensures !c.calls[i].pc.Violated? {
      assert HonestCall(c.calls[i], moved(i)) && VerdictOk(c.calls[i]) && CallOk(c.calls[i]);
      if c.calls[i].pc.Paid() {
        HonestIsNoViolation(c.calls[i], c.calls[i].pc.payment, moved(i));
      }
    }
  }

  /** With an honest wallet no payment is ever flagged and the tracker never freezes. */
  lemma {:induction false} HonestWalletNeverFreezes(cfg: Config, events: seq<Event>, moved: nat -> nat)
    requires HonestRun(cfg, events, moved)
    ensures NoneViolated(Exec(cfg, events).calls)
    ensures !Exec(cfg, events).run.st.frozen
  {
    HonestRunKeeps(cfg, events, moved);
    ExecKeeps(cfg, events);
    HonestNoneViolated(Exec(cfg, events), moved);
  }

  // ----- the money bound --------------------------------------------------------

  /**
   * What really left the wallet for a call: nothing if it confirmed a refusal,
   * what it reported if it reported a payment, and anything within its order if
   * the outcome is not known.
   */
  predicate Plausible(call: Call, moved: nat) {
    && (call.pc.Refused() ==> moved == 0)
    && (call.pc.AwaitingBackend? || call.pc.Abandoned? ==> WithinOrder(call, moved))
  }

  ghost function TotalMoved(n: nat, moved: nat -> nat): nat {
    if n == 0 then 0 else TotalMoved(n - 1, moved) + moved(n - 1)
  }

  lemma MovedWithinCharge(call: Call, moved: nat)
    requires CallOk(call) && VerdictOk(call) && !call.pc.Violated?
    requires HonestCall(call, moved) && Plausible(call, moved)
    ensures moved <= 1000 * (Settled()(call) + Reserved()(call))
  {
    if call.pc.Paid() {
      HonestIsNoViolation(call, call.pc.payment, moved);
    }
  }

  ghost predicate CallsFine(calls: seq<Call>, moved: nat -> nat) {
    forall i :: 0 <= i < |calls| ==>
      && CallOk(calls[i]) && VerdictOk(calls[i]) && !calls[i].pc.Violated?
      && HonestCall(calls[i], moved(i)) && Plausible(calls[i], moved(i))
  }

  lemma {:induction false} TotalWithinCharges(calls: seq<Call>, moved: nat -> nat)
    requires CallsFine(calls, moved)
    ensures TotalMoved(|calls|, moved) <= 1000 * (SumBy(calls, Settled()) + SumBy(calls, Reserved()))
  {
    if calls == [] {
    } else {
      var n := |calls| - 1;
      assert forall i :: 0 <= i < n ==> calls[..n][i] == calls[i];
      TotalWithinCharges(calls[..n], moved);
      MovedWithinCharge(calls[n], moved(n));
    }
  }

  /**
   * The money bound, end to end: all millisatoshis that left the wallet, paid,
   * in flight and lost track of alike, are at most 1000 times the total cap.
   */
  lemma {:induction false} RealSpendingIsBounded(cfg: Config, events: seq<Event>, moved: nat -> nat)
    requires HonestRun(cfg, events, moved)
    requires forall i :: 0 <= i < |Exec(cfg, events).calls| ==> Plausible(Exec(cfg, events).calls[i], moved(i))
    ensures TotalMoved(|Exec(cfg, events).calls|, moved) <= 1000 * BudgetRuns.TotalCap(cfg.budget.limits)
  {
    ExecKeeps(cfg, events);
    var c := Exec(cfg, events);
    HonestRunKeeps(cfg, events, moved);
    HonestNoneViolated(c, moved);
    TotalWithinCharges(c.calls, moved);
    PaymentTheorems.ClientOverspendIsBounded(cfg, events);
    UnfrozenNoExcess(cfg, c);
  }

  lemma UnfrozenNoExcess(cfg: Config, c: Client)
    requires Inv(cfg, c) && !c.run.st.frozen
    ensures BudgetRuns.Excess(BudgetModel.Global, c.run.log) == 0
  {
    BudgetRuns.UnfrozenIsExact(cfg.budget, c.run, BudgetModel.Global);
  }

  // ----- the adapters report honestly ----------------------------------------------

  /** A CLN node that pays the invoice and `fee`, both in millisatoshis, is reported as an honest payment. */
  lemma ClnReportsHonestly(call: Call, response: WalletAdapters.PayResponse, fee: U64)
    requires WalletAdapters.CompleteAnswer(Some(response))
    requires WalletAdapters.MeansMsat(response.amountMsat, Msat(call.invoice))
    requires Msat(call.invoice) + fee <= U64_MAX
    requires WalletAdapters.MeansMsat(response.amountSentMsat, Msat(call.invoice) + fee)
    requires fee <= WalletAdapters.MaxFeeMsat(call.maxFeeSats)
    ensures var r := WalletAdapters.PayWithCln(Some(response));
            r.Ok? && HonestPayment(call, r.value, Msat(call.invoice) + fee)
  {
    WalletAdapters.ClnReportsItsAnswer(Some(response), Msat(call.invoice), Msat(call.invoice) + fee);
    var r := WalletAdapters.PayWithCln(Some(response));
    WalletAdapters.CoversIsCeil(r.value.amountSats, Msat(call.invoice));
    WalletAdapters.CoversIsCeil(r.value.feeSats, fee);
  }

  /**
   * What an LND node may write for `x` millisatoshis, in either spelling of the
   * field names: the amount itself, or only whole sats, rounded down.
   */
  predicate Writes(
      msat: Option<string>, msatCamel: Option<string>, sat: Option<string>, satCamel: Option<string>, x: U64)
  {
    if msat.Some? then msat.value == Digits(x)
    else if msatCamel.Some? then msatCamel.value == Digits(x)
    else if sat.Some? then sat.value == Digits(x / 1000)
    else satCamel == Some(Digits(x / 1000))
  }

  /** The amount is written in millisatoshis, or is a whole number of sats. */
  predicate Exactly(msat: Option<string>, msatCamel: Option<string>, x: U64) {
    msat.Some? || msatCamel.Some? || x % 1000 == 0
  }

  lemma WrittenIsRounded(
      msat: Option<string>, msatCamel: Option<string>, sat: Option<string>, satCamel: Option<string>, x: U64, sats: U64)
    requires Writes(msat, msatCamel, sat, satCamel, x)
    requires WalletAdapters.Reported(msat, msatCamel, sat, satCamel, sats)
    ensures sats == if Exactly(msat, msatCamel, x) then CeilDiv(x, 1000) else x / 1000
  {
    WrittenReadsBack(x);
    WrittenReadsBack(x / 1000);
    WalletAdapters.SatsAreReported(msat, msatCamel, sat, satCamel, sats);
  }

  /** The update reports the invoice's amount and `fee`, and the adapter hands on what it says. */
  predicate LndAnswer(call: Call, u: WalletAdapters.Update, p: Payment, fee: U64) {
    && Writes(u.valueMsat, u.valueMsatCamel, u.valueSat, u.valueSatCamel, Msat(call.invoice))
    && Writes(u.feeMsat, u.feeMsatCamel, u.feeSat, u.feeSatCamel, fee)
    && WalletAdapters.Reported(u.valueMsat, u.valueMsatCamel, u.valueSat, u.valueSatCamel, p.amountSats)
    && WalletAdapters.Reported(u.feeMsat, u.feeMsatCamel, u.feeSat, u.feeSatCamel, p.feeSats)
  }

  /**
   * An LND node that pays the invoice and a fee within the cap is reported as an
   * honest payment exactly if each of the two is written in millisatoshis or is
   * a whole number of sats. If the invoice's amount is neither, the client takes
   * the payment for a violation.
   */
  lemma LndReportsHonestly(call: Call, u: WalletAdapters.Update, p: Payment, fee: U64)
    requires LndAnswer(call, u, p, fee) && fee <= WalletAdapters.MaxFeeMsat(call.maxFeeSats)
    ensures var exactAmount := Exactly(u.valueMsat, u.valueMsatCamel, Msat(call.invoice));
            var exactFee := Exactly(u.feeMsat, u.feeMsatCamel, fee);
            && (HonestPayment(call, p, Msat(call.invoice) + fee) <==> exactAmount && exactFee)
            && (AsDecoded(call.invoice, call.amountSats) && !exactAmount ==> IsViolation(call, p))
  {
    WrittenIsRounded(u.valueMsat, u.valueMsatCamel, u.valueSat, u.valueSatCamel, Msat(call.invoice), p.amountSats);
    WrittenIsRounded(u.feeMsat, u.feeMsatCamel, u.feeSat, u.feeSatCamel, fee, p.feeSats);
  }

  /** Settling such a payment freezes the tracker, although the node was honest. */
  lemma WholeSatsFreeze(cfg: Config, events: seq<Event>, id: nat, u: WalletAdapters.Update, fee: U64, now: U64)
    requires IsCall(Exec(cfg, events), id) && Exec(cfg, events).calls[id].pc.ReceiptPushed?
    requires var call := Exec(cfg, events).calls[id];
             && AsDecoded(call.invoice, call.amountSats) && LndAnswer(call, u, call.pc.payment, fee)
             && fee <= WalletAdapters.MaxFeeMsat(call.maxFeeSats)
             && u.valueMsat.None? && u.valueMsatCamel.None? && Msat(call.invoice) % 1000 != 0
    ensures Exec(cfg, events + [SettlePayment(id, now)]).run.st.frozen
  {
    var c := Exec(cfg, events);
    LndReportsHonestly(c.calls[id], u, c.calls[id].pc.payment, fee);
    ExecKeeps(cfg, events);
    ExecAppend(cfg, events, SettlePayment(id, now));
    SettlingViolationFreezes(cfg, c, id, now);
  }

  lemma SettlingViolationFreezes(cfg: Config, c: Client, id: nat, now: U64)
    requires Links(c) && Steppable(c)
    requires IsCall(c, id) && c.calls[id].pc.ReceiptPushed? && IsViolation(c.calls[id], c.calls[id].pc.payment)
    ensures Step(cfg, c, SettlePayment(id, now)).run.st.frozen
  {
    AuthorizedSettles(c, id);
    SettleStep(cfg, c, id, now);
    SettledFreezes(cfg, c, id, now);
  }

  lemma SettledFreezes(cfg: Config, c: Client, id: nat, now: U64)
    requires BudgetRuns.Sound(c.run) && |c.calls| <= U64_MAX && IsCall(c, id) && c.calls[id].pc.ReceiptPushed?
    requires id in c.run.held && IsViolation(c.calls[id], c.calls[id].pc.payment)
    ensures SettledBy(cfg.budget, c, id, now).run.st.frozen
  {
  }

  lemma WrittenReadsBack(n: U64)
    ensures WalletAdapters.ParseU64(Digits(n)) == Some(n)
  {
    ValueOfDigits(n);
    assert IsDigitString(Digits(n));
  }

  predicate IsDigitString(s: string) {
    s != "" && AllDigits(s) && s[0] != '+'
  }
}
