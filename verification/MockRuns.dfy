// A client running against its own mock server and mock wallet.

module MockRuns {
  import opened Numbers
  import opened Sums
  import opened Bolt11
  import BudgetModel
  import BudgetRuns
  import opened PaymentModel
  import opened PaymentInvariant
  import HonestWallet
  import opened MockBackend

  /** The client, the wallet's balance, and the challenges the server has issued so far. */
  datatype World = World(client: Client, balance: U64, challenges: map<string, PendingChallenge>)

  /**
   * The server issues a challenge; the wallet is asked to pay a waiting call
   * and answers; or any other step of the client happens. A call that is
   * cancelled had not been paid: the wallet is only ever asked in one go.
   */
  datatype WorldEvent =
    | Issue(challenge: PendingChallenge)
    | AskWallet(id: nat)
    | ClientStep(event: Event)

  /** What the server generates. */
  predicate Generated(c: PendingChallenge) {
    Writable(c.amountSats) && LowerHex(c.paymentHash) && c.invoice == WriteInvoice(c.amountSats, c.paymentHash)
  }

  /** Steps in which the wallet has no say; a claim carries the decoded amount of its invoice. */
  predicate OwnStep(e: Event) {
    match e
    case WalletPays(_, _) => false
    case WalletRejects(_) => false
    case WalletUncertain(_) => false
    case Claim(invoice, amountSats, _, _, _) => HonestWallet.AsDecoded(invoice, amountSats)
    case _ => true
  }

  ghost function Step(cfg: Config, w: World, e: WorldEvent): World
    requires Steppable(w.client)
  {
    match e
    case Issue(c) =>
      if Generated(c) then w.(challenges := w.challenges[c.invoice := c]) else w
    case AskWallet(id) =>
      if !IsCall(w.client, id) || !w.client.calls[id].pc.AwaitingBackend? then w else
      var (balance, answer) := Pay(w.challenges, w.balance, w.client.calls[id].invoice);
      (match answer
       case Ok(p) => w.(balance := balance, client := PaymentModel.Step(cfg, w.client, WalletPays(id, p)))
       case Err(_) => w.(balance := balance, client := PaymentModel.Step(cfg, w.client, WalletRejects(id))))
    case ClientStep(event) =>
      if OwnStep(event) then w.(client := PaymentModel.Step(cfg, w.client, event)) else w
  }

  // ----- the invariant -------------------------------------------------------------

  ghost function Taken(): Call -> nat {
    (call: Call) => if call.pc.Paid() then ChargedTotal(call.pc.payment) else 0
  }

  /** A call was claimed with its decoded amount and, if paid, was paid exactly that without a fee. */
  predicate ExactCall(call: Call) {
    && HonestWallet.AsDecoded(call.invoice, call.amountSats)
    && (call.pc.Paid() ==> call.pc.payment.amountSats == call.amountSats && call.pc.payment.feeSats == 0)
  }

  ghost predicate AllExact(calls: seq<Call>) {
    forall i :: 0 <= i < |calls| ==> ExactCall(calls[i])
  }

  ghost predicate Registered(challenges: map<string, PendingChallenge>) {
    forall k :: k in challenges ==> Generated(challenges[k]) && challenges[k].invoice == k
  }

  ghost predicate Inv(cfg: Config, start: U64, w: World) {
    && PaymentInvariant.Inv(cfg, w.client)
    && Registered(w.challenges)
    && AllExact(w.client.calls)
    && w.balance + SumBy(w.client.calls, Taken()) == start
  }

  /** The wallet charges exactly what the client decoded. */
  lemma WalletChargesDecoded(c: PendingChallenge, amountSats: U64)
    requires Generated(c) && HonestWallet.AsDecoded(c.invoice, amountSats)
    ensures c.amountSats == amountSats
  {
    WrittenInvoiceDecodes(c.amountSats, c.paymentHash, Decode(c.invoice).value.value.millisatoshis);
  }

  lemma NewCallTaken(calls: seq<Call>, call: Call)
    requires AllExact(calls) && ExactCall(call) && !call.pc.Paid()
    ensures AllExact(calls + [call])
    ensures SumBy(calls + [call], Taken()) == SumBy(calls, Taken())
  {
    SumByAppend(calls, call, Taken());
  }

  lemma ClaimAddsOne(cfg: Config, c: Client, e: Event)
    requires Steppable(c) && OwnStep(e) && |PaymentModel.Step(cfg, c, e).calls| > |c.calls|
    ensures var calls' := PaymentModel.Step(cfg, c, e).calls;
            var call := calls'[|c.calls|];
            calls' == c.calls + [call] && ExactCall(call) && !call.pc.Paid()
  {
  }

  lemma TakenUnchanged(cfg: Config, c: Client, e: Event)
    requires Steppable(c) && OwnStep(e)
    requires AllExact(c.calls)
    ensures var c' := PaymentModel.Step(cfg, c, e);
            && AllExact(c'.calls)
            && SumBy(c'.calls, Taken()) == SumBy(c.calls, Taken())
  {
    var calls' := PaymentModel.Step(cfg, c, e).calls;
    if |calls'| > |c.calls| {
      ClaimAddsOne(cfg, c, e);
      NewCallTaken(c.calls, calls'[|c.calls|]);
    } else {
      NeverFewerCalls(cfg, c, e);
      OneCallChanges(cfg, c, e);
    }
  }

  lemma NeverFewerCalls(cfg: Config, c: Client, e: Event)
    requires Steppable(c)
    ensures |PaymentModel.Step(cfg, c, e).calls| >= |c.calls|
  {
  }

  /** The call a step without a claim moves on, if it moves one. */
  ghost predicate MovesOne(calls: seq<Call>, calls': seq<Call>, id: nat) {
    id < |calls| == |calls'| && calls' == calls[id := calls'[id]]
    && calls'[id] == calls[id].(pc := calls'[id].pc)
    && (calls'[id].pc.Paid() <==> calls[id].pc.Paid())
    && (calls[id].pc.Paid() ==> calls'[id].pc.payment == calls[id].pc.payment)
  }

  lemma StepMovesOne(cfg: Config, c: Client, e: Event)
    requires Steppable(c) && OwnStep(e) && |PaymentModel.Step(cfg, c, e).calls| == |c.calls|
    ensures var c' := PaymentModel.Step(cfg, c, e);
            c'.calls == c.calls || exists id :: MovesOne(c.calls, c'.calls, id)
  {
    var c' := PaymentModel.Step(cfg, c, e);
    if c'.calls != c.calls {
      assert MovesOne(c.calls, c'.calls, e.id);
    }
  }

  lemma MoveKeepsTaken(calls: seq<Call>, calls': seq<Call>, id: nat)
    requires MovesOne(calls, calls', id)
    requires AllExact(calls)
    ensures AllExact(calls')
    ensures SumBy(calls', Taken()) == SumBy(calls, Taken())
  {
    var moved := calls'[id];
    SumByUpdate(calls, id, moved, Taken());
    assert ExactCall(moved);
    forall i | 0 <= i < |calls'| ensures ExactCall(calls'[i]) {
      assert calls'[i] == if i == id then moved else calls[i];
    }
  }

  /** A step without a claim makes no call paid or unpaid. */
  lemma OneCallChanges(cfg: Config, c: Client, e: Event)
    requires Steppable(c) && OwnStep(e) && |PaymentModel.Step(cfg, c, e).calls| == |c.calls|
    requires AllExact(c.calls)
    ensures var c' := PaymentModel.Step(cfg, c, e);
            && AllExact(c'.calls)
            && SumBy(c'.calls, Taken()) == SumBy(c.calls, Taken())
  {
    StepMovesOne(cfg, c, e);
    var calls' := PaymentModel.Step(cfg, c, e).calls;
    if calls' != c.calls {
      var id :| MovesOne(c.calls, calls', id);
      MoveKeepsTaken(c.calls, calls', id);
    }
  }

  /** The wallet's answer and the money it took, seen from the calls alone. */
  lemma AnswerKeepsBooks(start: U64, balance: nat, calls: seq<Call>, id: nat, pc: Pc, taken: nat)
    requires id < |calls| && calls[id].pc.AwaitingBackend?
    requires AllExact(calls)
    requires balance + SumBy(calls, Taken()) == start
    requires || (pc.BackendRefused? && taken == 0)
             || (pc.BackendPaid? && pc.payment.amountSats == calls[id].amountSats == taken <= balance
                 && pc.payment.feeSats == 0)
    ensures AllExact(calls[id := calls[id].(pc := pc)])
    ensures balance - taken + SumBy(calls[id := calls[id].(pc := pc)], Taken()) == start
  {
    SumByUpdate(calls, id, calls[id].(pc := pc), Taken());
  }

  lemma AskKeeps(cfg: Config, start: U64, w: World, id: nat)
    requires Inv(cfg, start, w) && Steppable(w.client)
    ensures Inv(cfg, start, Step(cfg, w, AskWallet(id)))
  {
    if IsCall(w.client, id) && w.client.calls[id].pc.AwaitingBackend? {
      var call := w.client.calls[id];
      assert ExactCall(call);
      var (balance, answer) := Pay(w.challenges, w.balance, call.invoice);
      if answer.Ok? {
        WalletChargesDecoded(w.challenges[call.invoice], call.amountSats);
        StepKeeps(cfg, w.client, WalletPays(id, answer.value));
        AnswerStep(cfg, w.client, id, answer.value);
        AnswerKeepsBooks(start, w.balance, w.client.calls, id, BackendPaid(answer.value), call.amountSats);
      } else {
        StepKeeps(cfg, w.client, WalletRejects(id));
        AnswerStep(cfg, w.client, id, Payment("", "", 0, 0));
        AnswerKeepsBooks(start, w.balance, w.client.calls, id, BackendRefused, 0);
      }
    }
  }

  lemma WorldStepKeeps(cfg: Config, start: U64, w: World, e: WorldEvent)
    requires Inv(cfg, start, w) && Steppable(w.client)
    ensures Inv(cfg, start, Step(cfg, w, e))
  {
    match e
    case Issue(c) =>
    case AskWallet(id) => AskKeeps(cfg, start, w, id);
    case ClientStep(event) =>
      if OwnStep(event) {
        StepKeeps(cfg, w.client, event);
        TakenUnchanged(cfg, w.client, event);
      }
  }

  /** Any run of a fresh client against the mock, from an initial balance; by `ExecKeeps`, every step can be taken. */
  ghost function Exec(cfg: Config, start: U64, events: seq<WorldEvent>): World {
    if events == [] then World(NEW_CLIENT, start, map[]) else
    var before := Exec(cfg, start, events[..|events| - 1]);
    if Steppable(before.client) then Step(cfg, before, events[|events| - 1]) else before
  }

  lemma {:induction false} ExecKeeps(cfg: Config, start: U64, events: seq<WorldEvent>)
    ensures Inv(cfg, start, Exec(cfg, start, events))
  {
    if events == [] {
      NewClientOk(cfg);
    } else {
      var before := Exec(cfg, start, events[..|events| - 1]);
      ExecKeeps(cfg, start, events[..|events| - 1]);
      LinksAreSteppable(before.client);
      WorldStepKeeps(cfg, start, before, events[|events| - 1]);
    }
  }

  // ----- theorems ---------------------------------------------------------------------

  lemma ExactIsNoViolation(cfg: Config, c: Client)
    requires Links(c)
    requires AllExact(c.calls)
    ensures !c.run.st.frozen
  {
    forall i | 0 <= i < |c.calls| ensures !c.calls[i].pc.Violated? {
      assert VerdictOk(c.calls[i]) && CallOk(c.calls[i]) && ExactCall(c.calls[i]);
    }
  }

  /** A client on its own mock never freezes. */
  lemma {:induction false} MockNeverFreezes(cfg: Config, start: U64, events: seq<WorldEvent>)
    ensures !Exec(cfg, start, events).client.run.st.frozen
  {
    ExecKeeps(cfg, start, events);
    ExactIsNoViolation(cfg, Exec(cfg, start, events).client);
  }

  /** No task is between the wallet's answer and its settlement: the state between two polls. */
  ghost predicate BetweenPolls(c: Client) {
    forall i :: 0 <= i < |c.calls| ==> !c.calls[i].pc.BackendPaid? && !c.calls[i].pc.ReceiptPushed?
  }

  /** What the wallet lost is what the client has settled, exactly, at every point between polls. */
  lemma {:induction false} MoneyIsConserved(cfg: Config, start: U64, events: seq<WorldEvent>)
    requires BetweenPolls(Exec(cfg, start, events).client)
    ensures var w := Exec(cfg, start, events);
            w.balance + w.client.run.st.global.total == start
  {
    ExecKeeps(cfg, start, events);
    var w := Exec(cfg, start, events);
    SettledIsTaken(w.client);
    GlobalTotalIsExact(cfg, w.client);
    MockNeverFreezes(cfg, start, events);
  }

  lemma SettledIsTaken(c: Client)
    requires BetweenPolls(c)
    ensures SumBy(c.calls, Settled()) == SumBy(c.calls, Taken())
  {
    SumByEqual(c.calls, Settled(), Taken());
  }

  lemma GlobalTotalIsExact(cfg: Config, c: Client)
    requires PaymentInvariant.Inv(cfg, c)
    ensures c.run.st.global.total == Cap(SumBy(c.calls, Settled()))
  {
    assert BudgetRuns.AccountOk(cfg.budget, c.run, BudgetModel.Global);
  }
}
