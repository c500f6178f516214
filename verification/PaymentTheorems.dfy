// What the payment protocol guarantees in every reachable state: for any
// number of tasks, any interleaving, any wallet, and cancellation at the await.

module PaymentTheorems {
  import opened Numbers
  import opened Sums
  import opened Text
  import opened BudgetModel
  import BudgetRuns
  import BudgetSpec
  import BudgetTheorems
  import opened PaymentModel
  import opened PaymentInvariant

  /**
   * An invoice, in any letter case, is handed to the wallet again only after
   * the wallet confirmed that every earlier attempt moved no money.
   */
  lemma {:induction false} PayOnce(cfg: Config, events: seq<Event>, i: nat, j: nat)
    requires i < j < |Exec(cfg, events).calls|
    requires SameText(Exec(cfg, events).calls[i].invoice, Exec(cfg, events).calls[j].invoice)
    ensures Exec(cfg, events).calls[i].pc.Refused()
  {
    ExecKeeps(cfg, events);
    var c := Exec(cfg, events);
    LowerIsCaseBlind(c.calls[i].invoice, c.calls[j].invoice);
    assert c.calls[i].key == c.calls[j].key;
  }

  /** Receipts `r` and `s` come from calls for different invoices. */
  predicate ForOtherInvoices(c: Client, r: nat, s: nat) {
    && r < |c.pushedBy| && s < |c.pushedBy|
    && c.pushedBy[r] < |c.calls| && c.pushedBy[s] < |c.calls|
    && !SameText(c.calls[c.pushedBy[r]].invoice, c.calls[c.pushedBy[s]].invoice)
  }

  lemma ReceiptsForOtherInvoices(c: Client, r: nat, s: nat)
    requires Links(c) && r < s < |c.receipts|
    ensures ForOtherInvoices(c, r, s)
  {
    assert PushedOk(c.receipts, c.pushedBy, c.calls, r) && PushedOk(c.receipts, c.pushedBy, c.calls, s);
    var i, j := c.pushedBy[r], c.pushedBy[s];
    assert i != j;
    assert c.calls[i].key == Lower(c.calls[i].invoice) && c.calls[j].key == Lower(c.calls[j].invoice);
    LowerIsCaseBlind(c.calls[i].invoice, c.calls[j].invoice);
  }

  /** An invoice leaves at most one receipt, ever. */
  lemma {:induction false} OneReceiptPerInvoice(cfg: Config, events: seq<Event>, r: nat, s: nat)
    requires r < s < |Exec(cfg, events).receipts|
    ensures ForOtherInvoices(Exec(cfg, events), r, s)
  {
    ExecKeeps(cfg, events);
    ReceiptsForOtherInvoices(Exec(cfg, events), r, s);
  }

  // ----- one call among others --------------------------------------------------------

  /** What the shared state shows of one call, wherever it is and whatever other tasks did. */
  ghost predicate Outcome(c: Client, i: nat) {
    IsCall(c, i) &&
    var call := c.calls[i];
    && (i in c.run.st.pending <==> call.pc.Open())
    && (call.pc.Open() ==>
          c.run.st.pending[i].amount == call.amountSats + call.maxFeeSats && c.run.st.pending[i].domain == call.domain)
    && (call.pc.HasReceipt() ==> call.pc.receipt < |c.receipts| && ReceiptOf(c.receipts[call.pc.receipt], call))
    && (call.pc.Violated? ==> c.run.st.frozen)
    && (call.pc.Published? || call.pc.Charged? ==> !IsViolation(call, call.pc.payment))
    && (!call.pc.Withdrawn? ==>
          call.key in c.payments && c.payments[call.key] == Shown(call.pc))
    && (call.pc.Withdrawn? && call.key in c.payments ==> exists j :: Occupies(c.calls, j, call.key) && j != i)
  }

  lemma LinksGiveOutcome(c: Client, i: nat)
    requires Links(c) && IsCall(c, i)
    ensures Outcome(c, i)
  {
    assert TokenOk(c.run, i, c.calls[i]) && ShownOk(c.payments, c.calls[i]);
    assert VerdictOk(c.calls[i]) && CallOk(c.calls[i]);
    if c.calls[i].pc.HasReceipt() {
      assert PointsBack(c.pushedBy, i, c.calls[i]);
      assert PushedOk(c.receipts, c.pushedBy, c.calls, c.calls[i].pc.receipt);
    }
    if c.calls[i].pc.Withdrawn? && c.calls[i].key in c.payments {
      var j :| Occupies(c.calls, j, c.calls[i].key);
    }
  }

  /**
   * In any interleaving, each call has left exactly its own mark: an open
   * reservation while it is unresolved, a receipt once it is paid, a known
   * payment once it is published, `None` for its invoice after a violation or
   * an unclear outcome, and nothing at all after a confirmed rejection.
   */
  lemma {:induction false} CallsLeaveTheirMark(cfg: Config, events: seq<Event>, i: nat)
    requires IsCall(Exec(cfg, events), i)
    ensures Outcome(Exec(cfg, events), i)
  {
    ExecKeeps(cfg, events);
    LinksGiveOutcome(Exec(cfg, events), i);
  }

  /** A program counter without the index of the receipt, which depends on other tasks. */
  function Stage(pc: Pc): Pc {
    match pc
    case ReceiptPushed(p, _) => ReceiptPushed(p, 0)
    case Charged(p, _) => Charged(p, 0)
    case Violated(p, _) => Violated(p, 0)
    case Published(p, _) => Published(p, 0)
    case _ => pc
  }

  /** What a task does next by its own code, at one of its own events. */
  function NextStage(call: Call, pc: Pc, e: Event): Pc {
    match (pc, e)
    case (AwaitingBackend, WalletPays(_, p)) => BackendPaid(p)
    case (AwaitingBackend, WalletRejects(_)) => BackendRefused
    case (AwaitingBackend, WalletUncertain(_)) => Abandoned
    case (AwaitingBackend, Cancel(_)) => Abandoned
    case (BackendPaid(p), PushReceipt(_)) => ReceiptPushed(p, 0)
    case (ReceiptPushed(p, _), SettlePayment(_, _)) => if IsViolation(call, p) then Violated(p, 0) else Charged(p, 0)
    case (Charged(p, _), Publish(_)) => Published(p, 0)
    case (BackendRefused, ReleaseReservation(_)) => Released
    case (Released, Withdraw(_)) => Withdrawn
    case _ => pc
  }

  predicate OwnEvent(e: Event, i: nat) {
    !e.Claim? && !e.RecordStatus? && e.id == i
  }

  /** A task alone: its own events in their order, all others left out. */
  function Replay(call: Call, pc: Pc, events: seq<Event>, i: nat): Pc {
    if events == [] then pc else
    var before, e := Replay(call, pc, events[..|events| - 1], i), events[|events| - 1];
    if OwnEvent(e, i) then NextStage(call, before, e) else before
  }

  lemma OthersLeaveCall(cfg: Config, c: Client, e: Event, i: nat)
    requires Steppable(c) && IsCall(c, i) && !OwnEvent(e, i)
    ensures IsCall(Step(cfg, c, e), i) && Step(cfg, c, e).calls[i] == c.calls[i]
  {
  }

  lemma OwnEventMoves(cfg: Config, c: Client, e: Event, i: nat)
    requires Links(c) && Steppable(c) && IsCall(c, i) && OwnEvent(e, i)
    ensures IsCall(Step(cfg, c, e), i)
    ensures Stage(Step(cfg, c, e).calls[i].pc) == NextStage(c.calls[i], Stage(c.calls[i].pc), e)
  {
    if e.SettlePayment? && c.calls[i].pc.ReceiptPushed? {
      AuthorizedSettles(c, i);
      SettlementMoves(cfg, c, i, e.now);
    } else {
      OtherOwnEventMoves(cfg, c, e, i);
    }
  }

  lemma SettlementMoves(cfg: Config, c: Client, i: nat, now: U64)
    requires Steppable(c) && IsCall(c, i) && c.calls[i].pc.ReceiptPushed?
    requires !IsViolation(c.calls[i], c.calls[i].pc.payment) ==>
               ChargedTotal(c.calls[i].pc.payment) <= c.run.st.pending[i].amount
    ensures var e := SettlePayment(i, now);
            && IsCall(Step(cfg, c, e), i)
            && Stage(Step(cfg, c, e).calls[i].pc) == NextStage(c.calls[i], Stage(c.calls[i].pc), e)
  {
    SettleStep(cfg, c, i, now);
  }

  lemma OtherOwnEventMoves(cfg: Config, c: Client, e: Event, i: nat)
    requires Steppable(c) && IsCall(c, i) && OwnEvent(e, i) && !(e.SettlePayment? && c.calls[i].pc.ReceiptPushed?)
    ensures IsCall(Step(cfg, c, e), i)
    ensures Stage(Step(cfg, c, e).calls[i].pc) == NextStage(c.calls[i], Stage(c.calls[i].pc), e)
  {
  }

  lemma NextStageOfSame(a: Call, b: Call, pc: Pc, e: Event)
    requires b == a.(pc := b.pc)
    ensures NextStage(a, pc, e) == NextStage(b, pc, e)
  {
  }

  /** Where a call stands depends on its own events alone, whatever other tasks do between them. */
  lemma {:induction false} InterleavingIsInvisible(cfg: Config, before: seq<Event>, after: seq<Event>, i: nat)
    requires IsCall(Exec(cfg, before), i)
    ensures IsCall(Exec(cfg, before + after), i)
    ensures var call := Exec(cfg, before).calls[i];
            Stage(Exec(cfg, before + after).calls[i].pc) == Replay(call, Stage(call.pc), after, i)
  {
    HistoryIsFinal(cfg, before, after);
    if after == [] {
      assert before + after == before;
    } else {
      var n := |after| - 1;
      InterleavingIsInvisible(cfg, before, after[..n], i);
      HistoryIsFinal(cfg, before, after[..n]);
      ExecExtend(cfg, before, after);
      var mid := Exec(cfg, before + after[..n]);
      if OwnEvent(after[n], i) {
        ExecKeeps(cfg, before + after[..n]);
        OwnEventMoves(cfg, mid, after[n], i);
        NextStageOfSame(Exec(cfg, before).calls[i], mid.calls[i], Stage(mid.calls[i].pc), after[n]);
      } else {
        OthersLeaveCall(cfg, mid, after[n], i);
      }
    }
  }

  /** What a call was for never changes, and the wallet's answer to it is final. */
  ghost predicate Continues(a: Call, b: Call) {
    && b == a.(pc := b.pc)
    && (a.pc.Refused() ==> b.pc.Refused())
    && (a.pc.Abandoned? ==> b.pc.Abandoned?)
    && (a.pc.Paid() ==> b.pc.Paid() && b.pc.payment == a.pc.payment)
    && (a.pc.HasReceipt() ==> b.pc.HasReceipt() && b.pc.receipt == a.pc.receipt)
    && (a.pc.Withdrawn? ==> b.pc.Withdrawn?)
    && (a.pc.Violated? || a.pc.Published? ==> b.pc == a.pc)
  }

  lemma ExecExtend(cfg: Config, before: seq<Event>, after: seq<Event>)
    requires after != []
    ensures var n := |after| - 1;
            && Steppable(Exec(cfg, before + after[..n]))
            && Exec(cfg, before + after) == Step(cfg, Exec(cfg, before + after[..n]), after[n])
  {
    var n := |after| - 1;
    assert before + after == (before + after[..n]) + [after[n]];
    ExecAppend(cfg, before + after[..n], after[n]);
  }

  ghost predicate AllContinue(calls: seq<Call>, calls': seq<Call>) {
    && |calls| <= |calls'|
    && forall i :: 0 <= i < |calls| ==> Continues(calls[i], calls'[i])
  }

  lemma {:induction false} HistoryIsFinal(cfg: Config, before: seq<Event>, after: seq<Event>)
    ensures AllContinue(Exec(cfg, before).calls, Exec(cfg, before + after).calls)
  {
    if after == [] {
      assert before + after == before;
    } else {
      var n := |after| - 1;
      var mid := before + after[..n];
      HistoryIsFinal(cfg, before, after[..n]);
      ExecExtend(cfg, before, after);
      StepContinues(cfg, Exec(cfg, mid), after[n]);
      ContinuesOn(Exec(cfg, before).calls, Exec(cfg, mid).calls, Exec(cfg, before + after).calls);
    }
  }

  lemma ContinuesOn(a: seq<Call>, b: seq<Call>, c: seq<Call>)
    requires AllContinue(a, b) && AllContinue(b, c)
    ensures AllContinue(a, c)
  {
    forall i | 0 <= i < |a| ensures Continues(a[i], c[i]) {
      assert Continues(a[i], b[i]) && Continues(b[i], c[i]);
    }
  }

  lemma OwnStepContinues(cfg: Config, c: Client, e: Event, i: nat)
    requires Steppable(c) && IsCall(c, i) && OwnEvent(e, i)
    ensures IsCall(Step(cfg, c, e), i) && Continues(c.calls[i], Step(cfg, c, e).calls[i])
  {
  }

  lemma StepContinuesAt(cfg: Config, c: Client, e: Event, i: nat)
    requires Steppable(c) && IsCall(c, i)
    ensures IsCall(Step(cfg, c, e), i) && Continues(c.calls[i], Step(cfg, c, e).calls[i])
  {
    if OwnEvent(e, i) {
      OwnStepContinues(cfg, c, e, i);
    } else {
      OthersLeaveCall(cfg, c, e, i);
    }
  }

  lemma StepContinues(cfg: Config, c: Client, e: Event)
    requires Steppable(c)
    ensures AllContinue(c.calls, Step(cfg, c, e).calls)
  {
    var calls' := Step(cfg, c, e).calls;
    assert |c.calls| <= |calls'|;
    forall i | 0 <= i < |c.calls| ensures Continues(c.calls[i], calls'[i]) {
      StepContinuesAt(cfg, c, e, i);
    }
  }

  lemma ReceiptKept(c: Client, c': Client, r: nat)
    requires Links(c) && Links(c') && AllContinue(c.calls, c'.calls) && r < |c.receipts|
    ensures r < |c'.receipts| && c'.receipts[r] == c.receipts[r].(responseStatus := c'.receipts[r].responseStatus)
  {
    assert PushedOk(c.receipts, c.pushedBy, c.calls, r);
    var i := c.pushedBy[r];
    assert Continues(c.calls[i], c'.calls[i]);
    assert PointsBack(c'.pushedBy, i, c'.calls[i]);
    assert PushedOk(c'.receipts, c'.pushedBy, c'.calls, r);
  }

  /** The audit trail only grows: a receipt keeps its place and, but for the response status, its contents. */
  lemma {:induction false} ReceiptsAreKept(cfg: Config, before: seq<Event>, after: seq<Event>, r: nat)
    requires r < |Exec(cfg, before).receipts|
    ensures var receipt, receipts' := Exec(cfg, before).receipts[r], Exec(cfg, before + after).receipts;
            r < |receipts'| && receipts'[r] == receipt.(responseStatus := receipts'[r].responseStatus)
  {
    HistoryIsFinal(cfg, before, after);
    ExecKeeps(cfg, before);
    ExecKeeps(cfg, before + after);
    ReceiptKept(Exec(cfg, before), Exec(cfg, before + after), r);
  }

  ghost predicate ReservationsExact(c: Client) {
    && (forall id :: id in c.run.st.pending <==> 0 <= id < |c.calls| && c.calls[id].pc.Open())
    && (forall id :: id in c.run.st.pending ==>
          c.calls[id].key in c.payments && c.payments[c.calls[id].key] == None)
    && (forall id, other :: id in c.run.st.pending && other in c.run.st.pending && id != other ==>
          c.calls[id].key != c.calls[other].key)
  }

  lemma LinksMakeReservationsExact(c: Client)
    requires Links(c)
    ensures ReservationsExact(c)
  {
    forall id
      ensures id in c.run.st.pending <==> 0 <= id < |c.calls| && c.calls[id].pc.Open()
    {
      if 0 <= id < |c.calls| {
        assert TokenOk(c.run, id, c.calls[id]);
      }
    }
    forall id | id in c.run.st.pending
      ensures c.calls[id].key in c.payments && c.payments[c.calls[id].key] == None
    {
      assert ShownOk(c.payments, c.calls[id]);
    }
    forall id, other | id in c.run.st.pending && other in c.run.st.pending && id != other
      ensures c.calls[id].key != c.calls[other].key
    {
      OnlyOccupant(c.payments, c.calls, id);
    }
  }

  /**
   * The reservations still charged are exactly those of the unresolved calls,
   * one each; the payments map holds `None` for the invoice of every one, so
   * no two share an invoice.
   */
  lemma {:induction false} ReservationsBelongToUnresolvedCalls(cfg: Config, events: seq<Event>)
    ensures ReservationsExact(Exec(cfg, events))
  {
    ExecKeeps(cfg, events);
    LinksMakeReservationsExact(Exec(cfg, events));
  }

  /** No step of the client meets a missing reservation or receipt: what the source asserts always holds. */
  lemma {:induction false} LookupsNeverFail(cfg: Config, events: seq<Event>)
    ensures var c := Exec(cfg, events);
            && (forall i :: 0 <= i < |c.calls| && c.calls[i].pc.HoldsToken() ==> i in c.run.st.pending)
            && (forall k :: k in c.returned ==> k.receipt < |c.receipts|)
  {
    ExecKeeps(cfg, events);
    var c := Exec(cfg, events);
    forall i | 0 <= i < |c.calls| && c.calls[i].pc.HoldsToken()
      ensures i in c.run.st.pending
    {
      assert TokenOk(c.run, i, c.calls[i]);
    }
    LinksAreSteppable(c);
  }

  /**
   * Whatever `pay_challenge` answers, and whatever the payments map shows, is a
   * published payment within its authorization whose receipt carries its
   * amounts, hash and preimage.
   */
  lemma {:induction false} KnownPaymentsHaveTheirReceipt(cfg: Config, events: seq<Event>, k: Known)
    requires var c := Exec(cfg, events);
             k in c.returned || exists key :: key in c.payments && c.payments[key] == Some(k)
    ensures var c := Exec(cfg, events);
            && k.receipt < |c.receipts| && k.receipt < |c.pushedBy| && c.pushedBy[k.receipt] < |c.calls|
            && c.calls[c.pushedBy[k.receipt]].pc == Published(k.payment, k.receipt)
            && ReceiptOf(c.receipts[k.receipt], c.calls[c.pushedBy[k.receipt]])
            && k.payment.amountSats == c.calls[c.pushedBy[k.receipt]].amountSats
            && k.payment.feeSats <= c.calls[c.pushedBy[k.receipt]].maxFeeSats
  {
    ExecKeeps(cfg, events);
    var c := Exec(cfg, events);
    if k !in c.returned {
      var key :| key in c.payments && c.payments[key] == Some(k);
      KnownIsPublished(c, key);
    }
    assert IsPublished(k, c.pushedBy, c.calls);
    assert PushedOk(c.receipts, c.pushedBy, c.calls, k.receipt);
    assert VerdictOk(c.calls[c.pushedBy[k.receipt]]);
  }

  /** The receipt of `k` was pushed by a call for the invoice with this key. */
  predicate PaidFor(c: Client, k: Known, key: string) {
    && k.receipt < |c.pushedBy| && c.pushedBy[k.receipt] < |c.calls|
    && c.calls[c.pushedBy[k.receipt]].key == key == Lower(c.calls[c.pushedBy[k.receipt]].invoice)
    && c.calls[c.pushedBy[k.receipt]].pc == Published(k.payment, k.receipt)
  }

  lemma ShownIsPaidFor(c: Client, key: string)
    requires Links(c) && key in c.payments && c.payments[key].Some?
    ensures PaidFor(c, c.payments[key].value, key)
  {
    var i :| Occupies(c.calls, i, key);
    assert ShownOk(c.payments, c.calls[i]) && PointsBack(c.pushedBy, i, c.calls[i]) && CallOk(c.calls[i]);
  }

  /**
   * The payment shown for an invoice is the one made for that invoice, and so
   * no two invoices share a receipt.
   */
  lemma {:induction false} ShownPaymentIsForItsInvoice(cfg: Config, events: seq<Event>, key: string, other: string)
    requires var c := Exec(cfg, events); key in c.payments && c.payments[key].Some?
    ensures var c := Exec(cfg, events);
            && PaidFor(c, c.payments[key].value, key)
            && (other != key && other in c.payments && c.payments[other].Some? ==>
                  c.payments[other].value.receipt != c.payments[key].value.receipt)
  {
    ExecKeeps(cfg, events);
    var c := Exec(cfg, events);
    ShownIsPaidFor(c, key);
    if other in c.payments && c.payments[other].Some? {
      ShownIsPaidFor(c, other);
    }
  }

  ghost predicate BooksAgree(run: BudgetRuns.Run, receipts: seq<Receipt>, calls: seq<Call>) {
    && ((forall i :: 0 <= i < |calls| ==> !calls[i].pc.ReceiptPushed?) ==>
          run.st.global.total == Cap(SumBy(receipts, Cost())))
    && run.st.global.total <= Cap(SumBy(receipts, Cost()))
    && TotalSpent(run.st) == Cap(SumBy(calls, Settled()) + SumBy(calls, Reserved()))
  }

  lemma ChargesMakeBooksAgree(run: BudgetRuns.Run, receipts: seq<Receipt>, calls: seq<Call>)
    requires ChargesLinked(run, receipts, calls)
    requires run.st.global.total == Cap(BudgetRuns.Spent(Global, run.log))
    ensures BooksAgree(run, receipts, calls)
  {
    SumByMonotone(calls, Settled(), Receipted());
    if forall i :: 0 <= i < |calls| ==> !calls[i].pc.ReceiptPushed? {
      SumByEqual(calls, Settled(), Receipted());
    }
  }

  lemma InvMakesBooksAgree(cfg: Config, c: Client)
    requires Inv(cfg, c)
    ensures BooksAgree(c.run, c.receipts, c.calls)
  {
    assert BudgetRuns.AccountOk(cfg.budget, c.run, Global);
    ChargesMakeBooksAgree(c.run, c.receipts, c.calls);
  }

  /**
   * Ledger and audit trail agree. Unless some task is between pushing its
   * receipt and settling it, the tracker's total is the cost of all receipts,
   * violations included; it never runs ahead of them. What a caller is told was
   * spent is that, plus exactly the reservations of unresolved calls.
   */
  lemma {:induction false} LedgerMatchesReceipts(cfg: Config, events: seq<Event>)
    ensures var c := Exec(cfg, events); BooksAgree(c.run, c.receipts, c.calls)
  {
    ExecKeeps(cfg, events);
    InvMakesBooksAgree(cfg, Exec(cfg, events));
  }

  /** Payments stop exactly when a wallet broke an authorization, and then no invoice is submitted again. */
  lemma {:induction false} FreezeStopsPayments(cfg: Config, before: seq<Event>, after: seq<Event>)
    ensures Exec(cfg, before).run.st.frozen <==>
              exists i :: 0 <= i < |Exec(cfg, before).calls| && Exec(cfg, before).calls[i].pc.Violated?
    ensures Exec(cfg, before).run.st.frozen ==> |Exec(cfg, before + after).calls| == |Exec(cfg, before).calls|
  {
    ExecKeeps(cfg, before);
    if Exec(cfg, before).run.st.frozen {
      FrozenKeepsCalls(cfg, before, after, |Exec(cfg, before).calls|);
    }
  }

  lemma FrozenStepKeepsCalls(cfg: Config, c: Client, e: Event)
    requires Steppable(c) && c.run.st.frozen
    ensures Step(cfg, c, e).run.st.frozen
    ensures |Step(cfg, c, e).calls| == |c.calls|
  {
    RunIsRunAfter(cfg, c, e);
    var call := BudgetCall(cfg, c, e);
    if call.Some? {
      BudgetTheorems.FrozenStep(cfg.budget, c.run, call.value);
    }
  }

  ghost predicate FrozenWith(c: Client, calls: nat) {
    c.run.st.frozen && |c.calls| == calls
  }

  lemma {:induction false} FrozenKeepsCalls(cfg: Config, before: seq<Event>, after: seq<Event>, calls: nat)
    requires FrozenWith(Exec(cfg, before), calls)
    ensures FrozenWith(Exec(cfg, before + after), calls)
  {
    if after == [] {
      assert before + after == before;
    } else {
      var n := |after| - 1;
      FrozenKeepsCalls(cfg, before, after[..n], calls);
      ExecExtend(cfg, before, after);
      FrozenStepKeepsCalls(cfg, Exec(cfg, before + after[..n]), after[n]);
    }
  }

  // ----- the client is one user of the budget tracker -------------------------

  /** The calls on the tracker that a run of the client makes. */
  ghost function BudgetEvents(cfg: Config, events: seq<Event>): seq<BudgetRuns.Event> {
    if events == [] then [] else
    var before := Exec(cfg, events[..|events| - 1]);
    ExecSteppable(cfg, events[..|events| - 1]);
    var call := BudgetCall(cfg, before, events[|events| - 1]);
    BudgetEvents(cfg, events[..|events| - 1]) + if call.Some? then [call.value] else []
  }

  lemma StepRefines(cfg: Config, c: Client, e: Event, calls: seq<BudgetRuns.Event>)
    requires Steppable(c) && c.run == BudgetRuns.Exec(cfg.budget, calls)
    ensures var call := BudgetCall(cfg, c, e);
            Step(cfg, c, e).run == BudgetRuns.Exec(cfg.budget, calls + if call.Some? then [call.value] else [])
  {
    RunIsRunAfter(cfg, c, e);
    var call := BudgetCall(cfg, c, e);
    if call.Some? {
      BudgetTheorems.ExecAppend(cfg.budget, calls, call.value);
    } else {
      assert calls + [] == calls;
    }
  }

  /** A run of the client is a run of the tracker, so every theorem about the tracker holds for the client. */
  lemma {:induction false} ClientRefinesTracker(cfg: Config, events: seq<Event>)
    ensures Exec(cfg, events).run == BudgetRuns.Exec(cfg.budget, BudgetEvents(cfg, events))
  {
    if events == [] {
    } else {
      var before := events[..|events| - 1];
      ClientRefinesTracker(cfg, before);
      ExecSteppable(cfg, before);
      StepRefines(cfg, Exec(cfg, before), events[|events| - 1], BudgetEvents(cfg, before));
    }
  }

  lemma ExecCharges(cfg: Config, events: seq<Event>)
    ensures var c := Exec(cfg, events); ChargesLinked(c.run, c.receipts, c.calls)
  {
    ExecKeeps(cfg, events);
  }

  /** The client stays within the total cap, up to what wallets took beyond their reservations. */
  lemma {:induction false} ClientOverspendIsBounded(cfg: Config, events: seq<Event>)
    ensures var c := Exec(cfg, events);
            SumBy(c.calls, Settled()) + SumBy(c.calls, Reserved())
              <= BudgetRuns.TotalCap(cfg.budget.limits) + BudgetRuns.Excess(Global, c.run.log)
  {
    ExecCharges(cfg, events);
    ClientRefinesTracker(cfg, events);
    var run := Exec(cfg, events).run;
    BudgetTheorems.OverspendIsBounded(cfg.budget, BudgetEvents(cfg, events), Global, cfg.budget.limits);
    BudgetSpec.SettledIsSpent(Global, run.log);
    BudgetSpec.ReservedIsOutstanding(Global, run.st.pending);
  }

  // ----- what a claim starts, and what becomes of a receipt's status -------------------------

  /** Nothing but what `pay_challenge` has returned changes. */
  ghost predicate NoCallStarted(c: Client, c': Client) {
    c'.calls == c.calls && c'.payments == c.payments && c'.receipts == c.receipts && c'.run.st == c.run.st
  }

  /** A known invoice, a wallet that cannot cap fees or a frozen tracker: no call is started. */
  lemma {:induction false} ClaimsAreRefused(
      cfg: Config, events: seq<Event>, invoice: string, amount: U64, domain: Option<string>, url: string, now: U64)
    requires var c := Exec(cfg, events);
             Lower(invoice) in c.payments || !cfg.supportsFeeLimit || c.run.st.frozen
    ensures NoCallStarted(Exec(cfg, events), Exec(cfg, events + [Claim(invoice, amount, domain, url, now)]))
  {
    ExecAppend(cfg, events, Claim(invoice, amount, domain, url, now));
  }

  /** What was handed back stays so; so is the payment of a known invoice, and one that is published. */
  lemma {:induction false} PaymentsAreHandedBack(cfg: Config, events: seq<Event>, e: Event)
    ensures var c, c' := Exec(cfg, events), Exec(cfg, events + [e]);
            && c.returned <= c'.returned
            && (e.Claim? && Lower(e.invoice) in c.payments && c.payments[Lower(e.invoice)].Some? ==>
                  c.payments[Lower(e.invoice)].value in c'.returned)
            && (e.Publish? && IsCall(c, e.id) && c.calls[e.id].pc.Charged? ==>
                  Known(c.calls[e.id].pc.payment, c.calls[e.id].pc.receipt) in c'.returned)
  {
    ExecAppend(cfg, events, e);
  }

  ghost predicate CallStarted(c: Client, c': Client, call: Call) {
    && c'.calls == c.calls + [call]
    && c'.payments == c.payments[call.key := None]
    && c'.receipts == c.receipts
    && c'.run.st.global == c.run.st.global && c'.run.st.domains == c.run.st.domains
  }

  /**
   * A new invoice is claimed exactly if a reservation id is left and its amount
   * fits every cap of the full log in exact integers; the call may spend, beyond
   * the amount, the largest fee up to the configured one that still fits.
   */
  lemma {:induction false} ClaimsAreExactAndGreedy(
      cfg: Config, events: seq<Event>, invoice: string, amount: U64, domain: Option<string>, url: string, now: U64)
    requires var c := Exec(cfg, events);
             && Lower(invoice) !in c.payments && cfg.supportsFeeLimit && !c.run.st.frozen
             && BudgetSpec.RemembersAll(cfg.budget, c.run, domain, now)
    ensures var c, c' := Exec(cfg, events), Exec(cfg, events + [Claim(invoice, amount, domain, url, now)]);
            if |c.calls| < U64_MAX && BudgetSpec.Fits(cfg.budget, c.run, domain, amount, now) then
              exists fee: U64 ::
                && fee <= cfg.maxFeeSats
                && CallStarted(c, c', Call(invoice, Lower(invoice), amount, fee, domain, url, AwaitingBackend))
                && BudgetSpec.Fits(cfg.budget, c.run, domain, amount + fee, now)
                && forall total: nat :: amount + fee < total <= amount + cfg.maxFeeSats ==>
                     !BudgetSpec.Fits(cfg.budget, c.run, domain, total, now)
            else
              NoCallStarted(c, c')
  {
    var c, e := Exec(cfg, events), Claim(invoice, amount, domain, url, now);
    ExecAppend(cfg, events, e);
    ExecKeeps(cfg, events);
    FreshClaimOutcome(cfg, c, e);
    ClientRefinesTracker(cfg, events);
    BudgetTheorems.ReserveIsExactAndGreedy(cfg.budget, BudgetEvents(cfg, events), amount, cfg.maxFeeSats, domain, now);
  }

  /** A fresh claim starts a call exactly if its reservation is granted. */
  lemma FreshClaimOutcome(cfg: Config, c: Client, e: Event)
    requires Links(c) && Steppable(c) && IsFreshClaim(cfg, c, e)
    ensures c.run.st.nextId == |c.calls|
    ensures var c' := Step(cfg, c, e);
            match Reserve(cfg.budget, c.run.st, e.amountSats, cfg.maxFeeSats, e.domain, e.now).1
            case Err(_) => NoCallStarted(c, c')
            case Ok(r) =>
              CallStarted(c, c', Call(e.invoice, Lower(e.invoice), e.amountSats, r.maxFeeSats, e.domain, e.url,
                                      AwaitingBackend))
  {
    FreshClaimStep(cfg, c, e);
    ReservingFacts(cfg.budget, c.run, e.amountSats, cfg.maxFeeSats, e.domain, e.now);
  }

  /** The status a receipt shows: the last one recorded for it by a request that was handed its payment, or 0. */
  ghost function LastStatus(cfg: Config, events: seq<Event>, receipt: nat): nat {
    if events == [] then 0 else
    var e, before := events[|events| - 1], events[..|events| - 1];
    if e.RecordStatus? && e.known in Exec(cfg, before).returned && e.known.receipt == receipt then e.status
    else LastStatus(cfg, before, receipt)
  }

  lemma StepRecords(cfg: Config, c: Client, e: Event, receipt: nat)
    requires Steppable(c)
    ensures var c' := Step(cfg, c, e);
            && |c.receipts| <= |c'.receipts| <= |c.receipts| + 1
            && (receipt < |c.receipts| ==>
                  c'.receipts[receipt].responseStatus ==
                  if e.RecordStatus? && e.known in c.returned && e.known.receipt == receipt then e.status
                  else c.receipts[receipt].responseStatus)
            && (receipt == |c.receipts| < |c'.receipts| ==> e.PushReceipt? && c'.receipts[receipt].responseStatus == 0)
  {
  }

  lemma {:induction false} NoStatusBeforeReceipt(cfg: Config, events: seq<Event>, receipt: nat)
    requires receipt >= |Exec(cfg, events).receipts|
    ensures LastStatus(cfg, events, receipt) == 0
  {
    if events == [] {
    } else {
      var before := events[..|events| - 1];
      ExecSteppable(cfg, before);
      StepRecords(cfg, Exec(cfg, before), events[|events| - 1], receipt);
      NoStatusBeforeReceipt(cfg, before, receipt);
    }
  }

  /** Each status ends up in the receipt of the payment it was recorded for, and in no other; until then it is 0. */
  lemma {:induction false} StatusesAreRecorded(cfg: Config, events: seq<Event>, receipt: nat)
    requires receipt < |Exec(cfg, events).receipts|
    ensures Exec(cfg, events).receipts[receipt].responseStatus == LastStatus(cfg, events, receipt)
  {
    if events == [] {
    } else {
      var before := events[..|events| - 1];
      ExecSteppable(cfg, before);
      StepRecords(cfg, Exec(cfg, before), events[|events| - 1], receipt);
      if receipt < |Exec(cfg, before).receipts| {
        StatusesAreRecorded(cfg, before, receipt);
      } else {
        NoStatusBeforeReceipt(cfg, before, receipt);
      }
    }
  }
}
