// What every step of the payment protocol keeps.

module PaymentInvariant {
  import opened Numbers
  import opened Sums
  import opened Text
  import opened BudgetModel
  import BudgetRuns
  import BudgetInvariant
  import opened PaymentModel

  // ----- the invariant, link by link ----------------------------------------

  /** A call holds its token while it runs and is charged until it is resolved. */
  ghost predicate TokenOk(run: BudgetRuns.Run, i: int, call: Call) {
    && (i in run.held <==> call.pc.HoldsToken())
    && (i in run.st.pending <==> call.pc.Open())
    && (call.pc.Open() ==>
          && run.st.pending[i].amount == call.amountSats + call.maxFeeSats
          && run.st.pending[i].domain == call.domain)
  }

  /** Call `i` owns reservation `i`. */
  ghost predicate TokensLinked(run: BudgetRuns.Run, calls: seq<Call>) {
    && run.st.nextId == |calls|
    && forall i :: 0 <= i < |calls| ==> TokenOk(run, i, calls[i])
  }

  predicate Occupies(calls: seq<Call>, i: int, key: string) {
    0 <= i < |calls| && calls[i].key == key && !calls[i].pc.Withdrawn?
  }

  /** What the payments map must show for the key of a call that is not withdrawn. */
  function Shown(pc: Pc): Option<Known> {
    if pc.Published? then Some(Known(pc.payment, pc.receipt)) else None
  }

  predicate ShownOk(payments: map<string, Option<Known>>, call: Call) {
    !call.pc.Withdrawn? ==> call.key in payments && payments[call.key] == Shown(call.pc)
  }

  /** A key is in the map exactly while a call occupies it; earlier calls for a key are all withdrawn. */
  ghost predicate PaymentsLinked(payments: map<string, Option<Known>>, calls: seq<Call>) {
    && (forall i :: 0 <= i < |calls| ==> ShownOk(payments, calls[i]))
    && (forall key :: key in payments ==> exists i :: Occupies(calls, i, key))
    && (forall i, j :: 0 <= i < j < |calls| && calls[i].key == calls[j].key ==> calls[i].pc.Withdrawn?)
  }

  predicate ReceiptOf(r: Receipt, call: Call) {
    && call.pc.HasReceipt()
    && r.endpoint == call.url
    && r.amountSats == call.pc.payment.amountSats
    && r.feeSats == call.pc.payment.feeSats
    && r.paymentHash == call.pc.payment.paymentHash
    && r.preimage == call.pc.payment.preimage
  }

  predicate PushedOk(receipts: seq<Receipt>, pushedBy: seq<nat>, calls: seq<Call>, r: int) {
    && 0 <= r < |receipts| == |pushedBy|
    && pushedBy[r] < |calls|
    && ReceiptOf(receipts[r], calls[pushedBy[r]])
    && calls[pushedBy[r]].pc.receipt == r
  }

  predicate PointsBack(pushedBy: seq<nat>, i: int, call: Call) {
    call.pc.HasReceipt() ==> call.pc.receipt < |pushedBy| && pushedBy[call.pc.receipt] == i
  }

  /** Receipts and the calls that pushed them point at each other. */
  ghost predicate ReceiptsLinked(receipts: seq<Receipt>, pushedBy: seq<nat>, calls: seq<Call>) {
    && |pushedBy| == |receipts|
    && (forall r :: 0 <= r < |receipts| ==> PushedOk(receipts, pushedBy, calls, r))
    && (forall i :: 0 <= i < |calls| ==> PointsBack(pushedBy, i, calls[i]))
  }

  predicate IsPublished(k: Known, pushedBy: seq<nat>, calls: seq<Call>) {
    && k.receipt < |pushedBy|
    && pushedBy[k.receipt] < |calls|
    && calls[pushedBy[k.receipt]].pc == Published(k.payment, k.receipt)
  }

  ghost function Reserved(): Call -> nat {
    (call: Call) => if call.pc.Open() then call.amountSats + call.maxFeeSats else 0
  }

  ghost function Settled(): Call -> nat {
    (call: Call) =>
      if call.pc.Charged? || call.pc.Violated? || call.pc.Published? then ChargedTotal(call.pc.payment) else 0
  }

  ghost function Receipted(): Call -> nat {
    (call: Call) => if call.pc.HasReceipt() then ChargedTotal(call.pc.payment) else 0
  }

  ghost function Cost(): Receipt -> nat {
    (r: Receipt) => r.TotalCostSats()
  }

  /** The ledger, the reservations and the receipts each add up to what the calls say. */
  ghost predicate ChargesLinked(run: BudgetRuns.Run, receipts: seq<Receipt>, calls: seq<Call>) {
    && BudgetRuns.Spent(Global, run.log) == SumBy(calls, Settled())
    && Outstanding(Global, run.st.pending) == SumBy(calls, Reserved())
    && SumBy(receipts, Cost()) == SumBy(calls, Receipted())
  }

  predicate VerdictOk(call: Call) {
    && (call.pc.Charged? || call.pc.Published? ==> !IsViolation(call, call.pc.payment))
    && (call.pc.Violated? ==> IsViolation(call, call.pc.payment))
  }

  /** The tracker is frozen exactly by a violating call. */
  ghost predicate VerdictsLinked(frozen: bool, calls: seq<Call>) {
    && (frozen <==> exists i :: 0 <= i < |calls| && calls[i].pc.Violated?)
    && forall i :: 0 <= i < |calls| ==> VerdictOk(calls[i])
  }

  /** The key is the invoice in lower case, and what was reserved for it fits 64 bits. */
  predicate CallOk(call: Call) {
    call.key == Lower(call.invoice) && call.amountSats + call.maxFeeSats <= U64_MAX
  }

  /** What the tracker and the sums have to do with the calls. */
  ghost predicate BooksLinked(run: BudgetRuns.Run, receipts: seq<Receipt>, calls: seq<Call>) {
    && (forall i :: 0 <= i < |calls| ==> CallOk(calls[i]))
    && TokensLinked(run, calls)
    && ChargesLinked(run, receipts, calls)
    && VerdictsLinked(run.st.frozen, calls)
  }

  ghost predicate Links(c: Client) {
    && BudgetRuns.Sound(c.run)
    && BooksLinked(c.run, c.receipts, c.calls)
    && PaymentsLinked(c.payments, c.calls)
    && ReceiptsLinked(c.receipts, c.pushedBy, c.calls)
    && (forall k :: k in c.returned ==> IsPublished(k, c.pushedBy, c.calls))
  }

  ghost predicate Inv(cfg: Config, c: Client) {
    BudgetRuns.Inv(cfg.budget, c.run) && Links(c)
  }

  lemma LinksAreSteppable(c: Client)
    requires Links(c)
    ensures Steppable(c)
  {
    forall i | 0 <= i < |c.calls| && c.calls[i].pc.ReceiptPushed?
      ensures i in c.run.st.pending
    {
      assert TokenOk(c.run, i, c.calls[i]);
    }
    forall k | k in c.returned ensures k.receipt < |c.receipts| {
      assert IsPublished(k, c.pushedBy, c.calls);
    }
  }

  // ----- what one changed program counter does to each link ------------------

  lemma TokensStep(run: BudgetRuns.Run, run': BudgetRuns.Run, calls: seq<Call>, id: nat, pc: Pc)
    requires TokensLinked(run, calls) && id < |calls|
    requires run'.st.nextId == run.st.nextId
    requires forall i :: i != id ==> (i in run'.held <==> i in run.held)
    requires forall i :: i != id ==> (i in run'.st.pending <==> i in run.st.pending)
    requires forall i :: i != id && i in run.st.pending ==> run'.st.pending[i] == run.st.pending[i]
    requires TokenOk(run', id, calls[id].(pc := pc))
    ensures TokensLinked(run', calls[id := calls[id].(pc := pc)])
  {
    var calls' := calls[id := calls[id].(pc := pc)];
    forall i | 0 <= i < |calls'| ensures TokenOk(run', i, calls'[i]) {
      assert TokenOk(run, i, calls[i]);
    }
  }

  lemma PaymentsStep(payments: map<string, Option<Known>>, calls: seq<Call>, id: nat, pc: Pc)
    requires PaymentsLinked(payments, calls) && id < |calls|
    requires !calls[id].pc.Withdrawn? && !pc.Withdrawn? && Shown(pc) == Shown(calls[id].pc)
    ensures PaymentsLinked(payments, calls[id := calls[id].(pc := pc)])
  {
    var calls' := calls[id := calls[id].(pc := pc)];
    assert ShownOk(payments, calls[id]);
    OccupiedStep(payments, calls, calls', id, pc);
  }

  lemma OccupiedStep(payments: map<string, Option<Known>>, calls: seq<Call>, calls': seq<Call>, id: nat, pc: Pc)
    requires id < |calls| && !pc.Withdrawn? && calls' == calls[id := calls[id].(pc := pc)]
    requires forall key :: key in payments ==> exists i :: Occupies(calls, i, key)
    ensures forall key :: key in payments ==> exists i :: Occupies(calls', i, key)
  {
    forall key | key in payments
      ensures exists i :: Occupies(calls', i, key)
    {
      var i :| Occupies(calls, i, key);
      assert Occupies(calls', i, key);
    }
  }

  /** Only the last call for a key can still be anything but withdrawn. */
  lemma OnlyOccupant(payments: map<string, Option<Known>>, calls: seq<Call>, id: nat)
    requires PaymentsLinked(payments, calls) && id < |calls| && !calls[id].pc.Withdrawn?
    ensures forall i :: 0 <= i < |calls| && i != id && calls[i].key == calls[id].key ==> calls[i].pc.Withdrawn?
    ensures forall j :: id < j < |calls| ==> calls[j].key != calls[id].key
  {
  }

  lemma PublishPayments(payments: map<string, Option<Known>>, calls: seq<Call>, id: nat, pc: Pc)
    requires PaymentsLinked(payments, calls) && id < |calls|
    requires !calls[id].pc.Withdrawn? && pc.Published?
    ensures PaymentsLinked(payments[calls[id].key := Shown(pc)], calls[id := calls[id].(pc := pc)])
  {
    var calls' := calls[id := calls[id].(pc := pc)];
    var payments' := payments[calls[id].key := Shown(pc)];
    OnlyOccupant(payments, calls, id);
    OccupiedStep(payments, calls, calls', id, pc);
    assert ShownOk(payments, calls[id]);
    assert payments'.Keys == payments.Keys;
    forall i | 0 <= i < |calls'| ensures ShownOk(payments', calls'[i]) {
      assert ShownOk(payments, calls[i]);
    }
  }

  lemma WithdrawPayments(payments: map<string, Option<Known>>, calls: seq<Call>, id: nat)
    requires PaymentsLinked(payments, calls) && id < |calls| && !calls[id].pc.Withdrawn?
    ensures PaymentsLinked(payments - {calls[id].key}, calls[id := calls[id].(pc := Withdrawn)])
  {
    var calls' := calls[id := calls[id].(pc := Withdrawn)];
    var payments' := payments - {calls[id].key};
    OnlyOccupant(payments, calls, id);
    forall i | 0 <= i < |calls'| ensures ShownOk(payments', calls'[i]) {
      assert ShownOk(payments, calls[i]);
    }
    forall key | key in payments'
      ensures exists i :: Occupies(calls', i, key)
    {
      var i :| Occupies(calls, i, key);
      assert Occupies(calls', i, key);
    }
  }

  predicate SameReceipt(from: Pc, to: Pc) {
    && (from.HasReceipt() <==> to.HasReceipt())
    && (from.HasReceipt() ==> from.payment == to.payment && from.receipt == to.receipt)
  }

  lemma ReceiptsStep(receipts: seq<Receipt>, pushedBy: seq<nat>, calls: seq<Call>, id: nat, pc: Pc)
    requires ReceiptsLinked(receipts, pushedBy, calls) && id < |calls|
    requires SameReceipt(calls[id].pc, pc)
    ensures ReceiptsLinked(receipts, pushedBy, calls[id := calls[id].(pc := pc)])
  {
    var calls' := calls[id := calls[id].(pc := pc)];
    forall r | 0 <= r < |receipts| ensures PushedOk(receipts, pushedBy, calls', r) {
      assert PushedOk(receipts, pushedBy, calls, r);
    }
    forall i | 0 <= i < |calls'| ensures PointsBack(pushedBy, i, calls'[i]) {
      assert PointsBack(pushedBy, i, calls[i]);
    }
  }

  lemma PushedStep(receipts: seq<Receipt>, pushedBy: seq<nat>, calls: seq<Call>, id: nat, r: Receipt, pc: Pc)
    requires ReceiptsLinked(receipts, pushedBy, calls) && id < |calls|
    requires !calls[id].pc.HasReceipt()
    requires ReceiptOf(r, calls[id].(pc := pc)) && pc.receipt == |receipts|
    ensures ReceiptsLinked(receipts + [r], pushedBy + [id], calls[id := calls[id].(pc := pc)])
  {
    var calls' := calls[id := calls[id].(pc := pc)];
    forall k | 0 <= k < |receipts| + 1 ensures PushedOk(receipts + [r], pushedBy + [id], calls', k) {
      if k < |receipts| {
        assert PushedOk(receipts, pushedBy, calls, k);
      }
    }
    forall i | 0 <= i < |calls'| ensures PointsBack(pushedBy + [id], i, calls'[i]) {
      assert PointsBack(pushedBy, i, calls[i]);
    }
  }

  lemma ReturnedStep(returned: set<Known>, pushedBy: seq<nat>, pushedBy': seq<nat>, calls: seq<Call>, id: nat, pc: Pc)
    requires forall k :: k in returned ==> IsPublished(k, pushedBy, calls)
    requires id < |calls| && !calls[id].pc.Published?
    requires pushedBy <= pushedBy'
    ensures forall k :: k in returned ==> IsPublished(k, pushedBy', calls[id := calls[id].(pc := pc)])
  {
    forall k | k in returned
      ensures IsPublished(k, pushedBy', calls[id := calls[id].(pc := pc)])
    {
      assert IsPublished(k, pushedBy, calls);
    }
  }

  lemma SumsStep(calls: seq<Call>, id: nat, pc: Pc)
    requires id < |calls|
    ensures var calls', call' := calls[id := calls[id].(pc := pc)], calls[id].(pc := pc);
            && SumBy(calls', Settled()) + Settled()(calls[id]) == SumBy(calls, Settled()) + Settled()(call')
            && SumBy(calls', Reserved()) + Reserved()(calls[id]) == SumBy(calls, Reserved()) + Reserved()(call')
            && SumBy(calls', Receipted()) + Receipted()(calls[id]) == SumBy(calls, Receipted()) + Receipted()(call')
  {
    SumByUpdate(calls, id, calls[id].(pc := pc), Settled());
    SumByUpdate(calls, id, calls[id].(pc := pc), Reserved());
    SumByUpdate(calls, id, calls[id].(pc := pc), Receipted());
  }

  lemma VerdictsStep(frozen: bool, frozen': bool, calls: seq<Call>, id: nat, pc: Pc)
    requires VerdictsLinked(frozen, calls) && id < |calls|
    requires !calls[id].pc.Violated? && VerdictOk(calls[id].(pc := pc))
    requires frozen' <==> frozen || pc.Violated?
    ensures VerdictsLinked(frozen', calls[id := calls[id].(pc := pc)])
  {
    var calls' := calls[id := calls[id].(pc := pc)];
    assert calls'[id].pc == pc;
    if frozen {
      var i :| 0 <= i < |calls| && calls[i].pc.Violated?;
      assert calls'[i].pc.Violated?;
    }
  }

  /** What a step of call `id` may do to the tracker. */
  ghost predicate TouchesOnly(run: BudgetRuns.Run, run': BudgetRuns.Run, id: nat) {
    && run'.st.nextId == run.st.nextId
    && (forall i :: i != id ==> (i in run'.held <==> i in run.held))
    && (forall i :: i != id ==> (i in run'.st.pending <==> i in run.st.pending))
    && (forall i :: i != id && i in run.st.pending ==> run'.st.pending[i] == run.st.pending[i])
  }

  /** What it has to do to the sums. */
  ghost predicate Balances(
      run: BudgetRuns.Run, run': BudgetRuns.Run, receipts: seq<Receipt>, receipts': seq<Receipt>,
      call: Call, call': Call)
  {
    && BudgetRuns.Spent(Global, run'.log) + Settled()(call) == BudgetRuns.Spent(Global, run.log) + Settled()(call')
    && Outstanding(Global, run'.st.pending) + Reserved()(call)
    == Outstanding(Global, run.st.pending) + Reserved()(call')
    && SumBy(receipts', Cost()) + Receipted()(call) == SumBy(receipts, Cost()) + Receipted()(call')
  }

  lemma BooksStep(run: BudgetRuns.Run, run': BudgetRuns.Run, receipts: seq<Receipt>, receipts': seq<Receipt>,
                  calls: seq<Call>, id: nat, pc: Pc)
    requires BooksLinked(run, receipts, calls) && id < |calls|
    requires TouchesOnly(run, run', id) && TokenOk(run', id, calls[id].(pc := pc))
    requires Balances(run, run', receipts, receipts', calls[id], calls[id].(pc := pc))
    requires !calls[id].pc.Violated? && VerdictOk(calls[id].(pc := pc))
    requires run'.st.frozen <==> run.st.frozen || pc.Violated?
    ensures BooksLinked(run', receipts', calls[id := calls[id].(pc := pc)])
  {
    TokensStep(run, run', calls, id, pc);
    SumsStep(calls, id, pc);
    VerdictsStep(run.st.frozen, run'.st.frozen, calls, id, pc);
    assert CallOk(calls[id]);
  }

  /** A step that does nothing to the tracker and the sums. */
  lemma QuietBooksStep(run: BudgetRuns.Run, receipts: seq<Receipt>, calls: seq<Call>, id: nat, pc: Pc)
    requires BooksLinked(run, receipts, calls) && id < |calls|
    requires TokenOk(run, id, calls[id].(pc := pc))
    requires Balances(run, run, receipts, receipts, calls[id], calls[id].(pc := pc))
    requires !calls[id].pc.Violated? && !pc.Violated? && VerdictOk(calls[id].(pc := pc))
    ensures BooksLinked(run, receipts, calls[id := calls[id].(pc := pc)])
  {
    BooksStep(run, run, receipts, receipts, calls, id, pc);
  }

  /** A move of one task that leaves the payments map and the receipts alone. */
  lemma MoveKeeps(c: Client, run': BudgetRuns.Run, id: nat, pc: Pc)
    requires Links(c) && BudgetRuns.Sound(run') && IsCall(c, id)
    requires !c.calls[id].pc.Withdrawn? && !pc.Withdrawn? && !c.calls[id].pc.Published? && !pc.Published?
    requires SameReceipt(c.calls[id].pc, pc)
    requires TouchesOnly(c.run, run', id) && TokenOk(run', id, c.calls[id].(pc := pc))
    requires Balances(c.run, run', c.receipts, c.receipts, c.calls[id], c.calls[id].(pc := pc))
    requires !c.calls[id].pc.Violated? && VerdictOk(c.calls[id].(pc := pc))
    requires run'.st.frozen <==> c.run.st.frozen || pc.Violated?
    ensures Links(SetPc(c.(run := run'), id, pc))
  {
    BooksStep(c.run, run', c.receipts, c.receipts, c.calls, id, pc);
    PaymentsStep(c.payments, c.calls, id, pc);
    ReceiptsStep(c.receipts, c.pushedBy, c.calls, id, pc);
    ReturnedStep(c.returned, c.pushedBy, c.pushedBy, c.calls, id, pc);
  }

  // ----- moves that only this task can see ------------------------------------

  lemma AnswerStep(cfg: Config, c: Client, id: nat, p: Payment)
    requires Steppable(c) && IsCall(c, id) && c.calls[id].pc.AwaitingBackend?
    ensures Step(cfg, c, WalletPays(id, p)) == SetPc(c, id, BackendPaid(p))
    ensures Step(cfg, c, WalletRejects(id)) == SetPc(c, id, BackendRefused)
  {
  }

  lemma AnswerMoveKeeps(c: Client, id: nat, pc: Pc)
    requires Links(c) && IsCall(c, id) && c.calls[id].pc.AwaitingBackend?
    requires pc.BackendPaid? || pc.BackendRefused?
    ensures Links(SetPc(c, id, pc))
  {
    assert TokenOk(c.run, id, c.calls[id]);
    MoveKeeps(c, c.run, id, pc);
  }

  lemma WalletPaysKeeps(cfg: Config, c: Client, id: nat, p: Payment)
    requires Links(c) && Steppable(c)
    ensures Links(Step(cfg, c, WalletPays(id, p)))
  {
    if IsCall(c, id) && c.calls[id].pc.AwaitingBackend? {
      AnswerStep(cfg, c, id, p);
      AnswerMoveKeeps(c, id, BackendPaid(p));
    }
  }

  lemma WalletRejectsKeeps(cfg: Config, c: Client, id: nat)
    requires Links(c) && Steppable(c)
    ensures Links(Step(cfg, c, WalletRejects(id)))
  {
    if IsCall(c, id) && c.calls[id].pc.AwaitingBackend? {
      AnswerStep(cfg, c, id, Payment("", "", 0, 0));
      AnswerMoveKeeps(c, id, BackendRefused);
    }
  }

  /** Only the token is lost. */
  lemma AbandonMoveKeeps(b: Budget, c: Client, id: nat)
    requires Links(c)
    requires IsCall(c, id) && c.calls[id].pc.AwaitingBackend?
    ensures Links(SetPc(c.(run := BudgetRuns.Step(b, c.run, BudgetRuns.Dropping(id))), id, Abandoned))
  {
    assert TokenOk(c.run, id, c.calls[id]);
    MoveKeeps(c, BudgetRuns.Step(b, c.run, BudgetRuns.Dropping(id)), id, Abandoned);
  }

  lemma AbandonStep(cfg: Config, c: Client, id: nat)
    requires Steppable(c) && IsCall(c, id) && c.calls[id].pc.AwaitingBackend?
    ensures var c' := SetPc(c.(run := BudgetRuns.Step(cfg.budget, c.run, BudgetRuns.Dropping(id))), id, Abandoned);
            Step(cfg, c, Cancel(id)) == c' && Step(cfg, c, WalletUncertain(id)) == c'
  {
  }

  lemma CancelKeeps(cfg: Config, c: Client, id: nat)
    requires Links(c) && Steppable(c)
    ensures Links(Step(cfg, c, Cancel(id)))
  {
    if IsCall(c, id) && c.calls[id].pc.AwaitingBackend? {
      AbandonStep(cfg, c, id);
      AbandonMoveKeeps(cfg.budget, c, id);
    }
  }

  lemma WalletUncertainKeeps(cfg: Config, c: Client, id: nat)
    requires Links(c) && Steppable(c)
    ensures Links(Step(cfg, c, WalletUncertain(id)))
  {
    if IsCall(c, id) && c.calls[id].pc.AwaitingBackend? {
      AbandonStep(cfg, c, id);
      AbandonMoveKeeps(cfg.budget, c, id);
    }
  }

  // ----- a confirmed rejection ------------------------------------------------

  lemma ReleaseMoveKeeps(b: Budget, c: Client, id: nat)
    requires Links(c)
    requires IsCall(c, id) && c.calls[id].pc.BackendRefused?
    ensures Links(SetPc(c.(run := BudgetRuns.Step(b, c.run, BudgetRuns.Releasing(id))), id, Released))
  {
    assert TokenOk(c.run, id, c.calls[id]);
    BudgetInvariant.OutstandingAfterRemove(Global, c.run.st.pending, id);
    MoveKeeps(c, BudgetRuns.Step(b, c.run, BudgetRuns.Releasing(id)), id, Released);
  }

  lemma ReleaseStep(cfg: Config, c: Client, id: nat)
    requires Steppable(c) && IsCall(c, id) && c.calls[id].pc.BackendRefused?
    ensures Step(cfg, c, ReleaseReservation(id))
         == SetPc(c.(run := BudgetRuns.Step(cfg.budget, c.run, BudgetRuns.Releasing(id))), id, Released)
  {
  }

  lemma ReleaseKeeps(cfg: Config, c: Client, id: nat)
    requires Links(c) && Steppable(c)
    ensures Links(Step(cfg, c, ReleaseReservation(id)))
  {
    if IsCall(c, id) && c.calls[id].pc.BackendRefused? {
      ReleaseStep(cfg, c, id);
      ReleaseMoveKeeps(cfg.budget, c, id);
    }
  }

  lemma WithdrawMoveKeeps(c: Client, id: nat)
    requires Links(c)
    requires IsCall(c, id) && c.calls[id].pc.Released?
    ensures Links(SetPc(c, id, Withdrawn).(payments := c.payments - {c.calls[id].key}))
  {
    assert TokenOk(c.run, id, c.calls[id]);
    QuietBooksStep(c.run, c.receipts, c.calls, id, Withdrawn);
    WithdrawPayments(c.payments, c.calls, id);
    ReceiptsStep(c.receipts, c.pushedBy, c.calls, id, Withdrawn);
    ReturnedStep(c.returned, c.pushedBy, c.pushedBy, c.calls, id, Withdrawn);
  }

  lemma WithdrawKeeps(cfg: Config, c: Client, id: nat)
    requires Links(c) && Steppable(c)
    ensures Links(Step(cfg, c, Withdraw(id)))
  {
    if IsCall(c, id) && c.calls[id].pc.Released? {
      WithdrawMoveKeeps(c, id);
    }
  }

  // ----- a payment ------------------------------------------------------------

  lemma PushMoveKeeps(c: Client, id: nat, r: Receipt, pc: Pc)
    requires Links(c)
    requires IsCall(c, id) && c.calls[id].pc.BackendPaid?
    requires pc == ReceiptPushed(c.calls[id].pc.payment, |c.receipts|) && ReceiptOf(r, c.calls[id].(pc := pc))
    ensures Links(SetPc(c, id, pc).(receipts := c.receipts + [r], pushedBy := c.pushedBy + [id]))
  {
    assert TokenOk(c.run, id, c.calls[id]);
    SumByAppend(c.receipts, r, Cost());
    BooksStep(c.run, c.run, c.receipts, c.receipts + [r], c.calls, id, pc);
    PaymentsStep(c.payments, c.calls, id, pc);
    PushedStep(c.receipts, c.pushedBy, c.calls, id, r, pc);
    ReturnedStep(c.returned, c.pushedBy, c.pushedBy + [id], c.calls, id, pc);
  }

  /** The client once the receipt of call `id` is pushed. */
  function PushedBy(c: Client, id: nat): Client
    requires IsCall(c, id) && c.calls[id].pc.BackendPaid?
  {
    var p := c.calls[id].pc.payment;
    SetPc(c, id, ReceiptPushed(p, |c.receipts|)).(
      receipts := c.receipts + [Receipt(c.calls[id].url, p.amountSats, p.feeSats, p.paymentHash, p.preimage, 0)],
      pushedBy := c.pushedBy + [id])
  }

  lemma PushStep(cfg: Config, c: Client, id: nat)
    requires Steppable(c) && IsCall(c, id) && c.calls[id].pc.BackendPaid?
    ensures Step(cfg, c, PushReceipt(id)) == PushedBy(c, id)
  {
  }

  lemma PushKeeps(cfg: Config, c: Client, id: nat)
    requires Links(c) && Steppable(c)
    ensures Links(Step(cfg, c, PushReceipt(id)))
  {
    if IsCall(c, id) && c.calls[id].pc.BackendPaid? {
      var p := c.calls[id].pc.payment;
      PushStep(cfg, c, id);
      PushMoveKeeps(c, id, Receipt(c.calls[id].url, p.amountSats, p.feeSats, p.paymentHash, p.preimage, 0),
                    ReceiptPushed(p, |c.receipts|));
    }
  }

  /** A payment within its authorization is within its reservation, so its settlement is accepted. */
  lemma AuthorizedSettles(c: Client, id: nat)
    requires Links(c)
    requires IsCall(c, id) && c.calls[id].pc.ReceiptPushed?
    ensures id in c.run.held && id in c.run.st.pending
    ensures c.run.st.pending[id].amount == c.calls[id].amountSats + c.calls[id].maxFeeSats
    ensures !IsViolation(c.calls[id], c.calls[id].pc.payment) ==>
              ChargedTotal(c.calls[id].pc.payment) <= c.run.st.pending[id].amount
  {
    assert TokenOk(c.run, id, c.calls[id]);
  }

  lemma SettlingFacts(b: Budget, r: BudgetRuns.Run, id: U64, amount: U64, now: U64, violation: bool)
    requires BudgetRuns.Sound(r) && id in r.held
    ensures var r' := BudgetRuns.Step(b, r, BudgetRuns.Settling(id, amount, now, violation));
            && r'.st.nextId == r.st.nextId
            && r'.held == r.held - {id}
            && r'.st.pending == r.st.pending - {id}
            && (r'.st.frozen <==> r.st.frozen || violation || amount > r.st.pending[id].amount)
            && Outstanding(Global, r'.st.pending) + r.st.pending[id].amount == Outstanding(Global, r.st.pending)
            && BudgetRuns.Spent(Global, r'.log) == BudgetRuns.Spent(Global, r.log) + amount
  {
    var p := r.st.pending[id];
    BudgetInvariant.OutstandingAfterRemove(Global, r.st.pending, id);
    BudgetRuns.LogAppend(Global, r.log, BudgetRuns.Entry(p.amount, amount, p.domain, now, violation));
  }

  /** The two tests of the source agree: the settlement is refused exactly for a violation. */
  function Verdict(call: Call): Pc
    requires call.pc.ReceiptPushed?
  {
    if IsViolation(call, call.pc.payment)
    then Violated(call.pc.payment, call.pc.receipt)
    else Charged(call.pc.payment, call.pc.receipt)
  }

  /** The client once call `id` is charged and judged. */
  ghost function SettledBy(b: Budget, c: Client, id: nat, now: U64): Client
    requires BudgetRuns.Sound(c.run) && |c.calls| <= U64_MAX && IsCall(c, id) && c.calls[id].pc.ReceiptPushed?
  {
    var p := c.calls[id].pc.payment;
    var e := BudgetRuns.Settling(id, ChargedTotal(p), now, IsViolation(c.calls[id], p));
    SetPc(c.(run := BudgetRuns.Step(b, c.run, e)), id, Verdict(c.calls[id]))
  }

  lemma SettleStep(cfg: Config, c: Client, id: nat, now: U64)
    requires Steppable(c)
    requires IsCall(c, id) && c.calls[id].pc.ReceiptPushed?
    requires !IsViolation(c.calls[id], c.calls[id].pc.payment) ==>
               ChargedTotal(c.calls[id].pc.payment) <= c.run.st.pending[id].amount
    ensures Step(cfg, c, SettlePayment(id, now)) == SettledBy(cfg.budget, c, id, now)
  {
  }

  lemma ChargedMoveKeeps(b: Budget, c: Client, id: nat, now: U64)
    requires Links(c)
    requires IsCall(c, id) && c.calls[id].pc.ReceiptPushed?
    ensures Links(SettledBy(b, c, id, now))
  {
    var call := c.calls[id];
    var total, violation := ChargedTotal(call.pc.payment), IsViolation(call, call.pc.payment);
    assert TokenOk(c.run, id, call);
    AuthorizedSettles(c, id);
    SettlingFacts(b, c.run, id, total, now, violation);
    MoveKeeps(c, BudgetRuns.Step(b, c.run, BudgetRuns.Settling(id, total, now, violation)), id, Verdict(call));
  }

  lemma SettleKeeps(cfg: Config, c: Client, id: nat, now: U64)
    requires Links(c) && Steppable(c)
    ensures Links(Step(cfg, c, SettlePayment(id, now)))
  {
    if IsCall(c, id) && c.calls[id].pc.ReceiptPushed? {
      AuthorizedSettles(c, id);
      SettleStep(cfg, c, id, now);
      ChargedMoveKeeps(cfg.budget, c, id, now);
    }
  }

  lemma PublishReturned(c: Client, id: nat, pc: Pc)
    requires ReceiptsLinked(c.receipts, c.pushedBy, c.calls)
    requires forall k :: k in c.returned ==> IsPublished(k, c.pushedBy, c.calls)
    requires IsCall(c, id) && c.calls[id].pc.Charged?
    requires pc == Published(c.calls[id].pc.payment, c.calls[id].pc.receipt)
    ensures forall k :: k in c.returned + {Known(pc.payment, pc.receipt)} ==>
              IsPublished(k, c.pushedBy, c.calls[id := c.calls[id].(pc := pc)])
  {
    assert PointsBack(c.pushedBy, id, c.calls[id]);
    ReturnedStep(c.returned, c.pushedBy, c.pushedBy, c.calls, id, pc);
  }

  lemma PublishMoveKeeps(c: Client, id: nat, pc: Pc)
    requires Links(c)
    requires IsCall(c, id) && c.calls[id].pc.Charged?
    requires pc == Published(c.calls[id].pc.payment, c.calls[id].pc.receipt)
    ensures Links(SetPc(c, id, pc).(
                    payments := c.payments[c.calls[id].key := Shown(pc)],
                    returned := c.returned + {Known(pc.payment, pc.receipt)}))
  {
    assert TokenOk(c.run, id, c.calls[id]) && VerdictOk(c.calls[id]);
    QuietBooksStep(c.run, c.receipts, c.calls, id, pc);
    PublishPayments(c.payments, c.calls, id, pc);
    ReceiptsStep(c.receipts, c.pushedBy, c.calls, id, pc);
    PublishReturned(c, id, pc);
  }

  lemma PublishKeeps(cfg: Config, c: Client, id: nat)
    requires Links(c) && Steppable(c)
    ensures Links(Step(cfg, c, Publish(id)))
  {
    if IsCall(c, id) && c.calls[id].pc.Charged? {
      PublishMoveKeeps(c, id, Published(c.calls[id].pc.payment, c.calls[id].pc.receipt));
    }
  }

  // ----- claiming ---------------------------------------------------------------

  /** What the payments map shows is a published call with its own receipt. */
  lemma KnownIsPublished(c: Client, key: string)
    requires Links(c) && key in c.payments && c.payments[key].Some?
    ensures IsPublished(c.payments[key].value, c.pushedBy, c.calls)
  {
    var i :| Occupies(c.calls, i, key);
    assert ShownOk(c.payments, c.calls[i]) && PointsBack(c.pushedBy, i, c.calls[i]);
  }

  lemma ReservingFacts(b: Budget, r: BudgetRuns.Run, amount: U64, maxFee: U64, domain: Option<string>, now: U64)
    requires BudgetRuns.Sound(r)
    ensures var r' := BudgetRuns.Step(b, r, BudgetRuns.Reserving(amount, maxFee, domain, now));
            var res := Reserve(b, r.st, amount, maxFee, domain, now).1;
            && r'.log == r.log && r'.st.frozen == r.st.frozen
            && (res.Err? ==> r'.st == r.st && r'.held == r.held)
            && (res.Ok? ==>
                  && res.value.id == r.st.nextId && r.st.nextId < U64_MAX
                  && r'.st.nextId == r.st.nextId + 1
                  && r'.held == r.held + {r.st.nextId}
                  && amount + res.value.maxFeeSats <= U64_MAX
                  && r'.st.pending == r.st.pending[r.st.nextId := Pending(amount + res.value.maxFeeSats, domain)]
                  && Outstanding(Global, r'.st.pending)
                  == Outstanding(Global, r.st.pending) + amount + res.value.maxFeeSats)
  {
    var res := Reserve(b, r.st, amount, maxFee, domain, now).1;
    if res.Ok? {
      GrantFits(b, r.st, amount, maxFee, domain, now);
      SumMapInsert(r.st.pending, PendingIn(Global), r.st.nextId, Pending(amount + res.value.maxFeeSats, domain));
    }
  }

  lemma NewCallPayments(payments: map<string, Option<Known>>, calls: seq<Call>, call: Call)
    requires PaymentsLinked(payments, calls)
    requires call.pc == AwaitingBackend && call.key !in payments
    ensures PaymentsLinked(payments[call.key := None], calls + [call])
  {
    var calls', payments' := calls + [call], payments[call.key := None];
    forall i | 0 <= i < |calls'| ensures ShownOk(payments', calls'[i]) {
      if i < |calls| {
        assert ShownOk(payments, calls[i]);
      }
    }
    forall key | key in payments'
      ensures exists i :: Occupies(calls', i, key)
    {
      if key == call.key {
        assert Occupies(calls', |calls|, key);
      } else {
        var i :| Occupies(calls, i, key);
        assert Occupies(calls', i, key);
      }
    }
    forall i, j | 0 <= i < j < |calls'| && calls'[i].key == calls'[j].key
      ensures calls'[i].pc.Withdrawn?
    {
      assert ShownOk(payments, calls[i]);
    }
  }

  lemma NewCallReceipts(c: Client, call: Call)
    requires Links(c) && call.pc == AwaitingBackend
    ensures ReceiptsLinked(c.receipts, c.pushedBy, c.calls + [call])
    ensures forall k :: k in c.returned ==> IsPublished(k, c.pushedBy, c.calls + [call])
  {
    var calls' := c.calls + [call];
    forall r | 0 <= r < |c.receipts| ensures PushedOk(c.receipts, c.pushedBy, calls', r) {
      assert PushedOk(c.receipts, c.pushedBy, c.calls, r);
    }
    forall i | 0 <= i < |calls'| ensures PointsBack(c.pushedBy, i, calls'[i]) {
      if i < |c.calls| {
        assert PointsBack(c.pushedBy, i, c.calls[i]);
      }
    }
    forall k | k in c.returned ensures IsPublished(k, c.pushedBy, calls') {
      assert IsPublished(k, c.pushedBy, c.calls);
    }
  }

  lemma NewCallTokens(run: BudgetRuns.Run, run': BudgetRuns.Run, calls: seq<Call>, call: Call)
    requires TokensLinked(run, calls) && call.pc == AwaitingBackend
    requires call.amountSats + call.maxFeeSats <= U64_MAX && |calls| < U64_MAX
    requires run'.st.nextId == run.st.nextId + 1 && run'.held == run.held + {|calls|}
    requires run'.st.pending == run.st.pending[|calls| := Pending(call.amountSats + call.maxFeeSats, call.domain)]
    ensures TokensLinked(run', calls + [call])
  {
    var calls' := calls + [call];
    forall i | 0 <= i < |calls'| ensures TokenOk(run', i, calls'[i]) {
      if i < |calls| {
        assert TokenOk(run, i, calls[i]);
      }
    }
  }

  lemma NewCallVerdicts(frozen: bool, calls: seq<Call>, call: Call)
    requires VerdictsLinked(frozen, calls) && call.pc == AwaitingBackend
    ensures VerdictsLinked(frozen, calls + [call])
  {
    var calls' := calls + [call];
    assert forall i :: 0 <= i < |calls| ==> calls'[i] == calls[i];
    assert calls'[|calls|] == call;
  }

  lemma NewCallKeeps(c: Client, run': BudgetRuns.Run, call: Call)
    requires Links(c) && BudgetRuns.Sound(run')
    requires call.pc == AwaitingBackend && call.key == Lower(call.invoice) && call.key !in c.payments
    requires |c.calls| < U64_MAX && call.amountSats + call.maxFeeSats <= U64_MAX
    requires run'.log == c.run.log && run'.st.frozen == c.run.st.frozen
    requires run'.st.nextId == c.run.st.nextId + 1 && run'.held == c.run.held + {|c.calls|}
    requires run'.st.pending == c.run.st.pending[|c.calls| := Pending(call.amountSats + call.maxFeeSats, call.domain)]
    requires Outstanding(Global, run'.st.pending)
          == Outstanding(Global, c.run.st.pending) + call.amountSats + call.maxFeeSats
    ensures Links(c.(run := run', payments := c.payments[call.key := None], calls := c.calls + [call]))
  {
    NewCallTokens(c.run, run', c.calls, call);
    NewCallPayments(c.payments, c.calls, call);
    NewCallReceipts(c, call);
    NewCallVerdicts(c.run.st.frozen, c.calls, call);
    SumByAppend(c.calls, call, Settled());
    SumByAppend(c.calls, call, Reserved());
    SumByAppend(c.calls, call, Receipted());
  }

  lemma KnownClaimKeeps(c: Client, key: string)
    requires Links(c) && key in c.payments && c.payments[key].Some?
    ensures Links(c.(returned := c.returned + {c.payments[key].value}))
  {
    KnownIsPublished(c, key);
  }

  /** The client once a call is claimed with its reservation. */
  function ClaimedBy(c: Client, run: BudgetRuns.Run, call: Call): Client {
    c.(run := run, payments := c.payments[call.key := None], calls := c.calls + [call])
  }

  ghost predicate IsFreshClaim(cfg: Config, c: Client, e: Event) {
    e.Claim? && Lower(e.invoice) !in c.payments && cfg.supportsFeeLimit
  }

  lemma FreshClaimStep(cfg: Config, c: Client, e: Event)
    requires Steppable(c) && IsFreshClaim(cfg, c, e)
    ensures var reserving := BudgetRuns.Reserving(e.amountSats, cfg.maxFeeSats, e.domain, e.now);
            var run' := BudgetRuns.Step(cfg.budget, c.run, reserving);
            Step(cfg, c, e) ==
            match Reserve(cfg.budget, c.run.st, e.amountSats, cfg.maxFeeSats, e.domain, e.now).1
            case Err(_) => c.(run := run')
            case Ok(r) =>
              ClaimedBy(c, run', Call(e.invoice, Lower(e.invoice), e.amountSats, r.maxFeeSats, e.domain, e.url,
                                      AwaitingBackend))
  {
  }

  lemma FreshClaimKeeps(cfg: Config, c: Client, e: Event)
    requires Links(c) && Steppable(c) && IsFreshClaim(cfg, c, e)
    ensures Links(Step(cfg, c, e))
  {
    var run' := BudgetRuns.Step(cfg.budget, c.run, BudgetRuns.Reserving(e.amountSats, cfg.maxFeeSats, e.domain, e.now));
    FreshClaimStep(cfg, c, e);
    ReservingFacts(cfg.budget, c.run, e.amountSats, cfg.maxFeeSats, e.domain, e.now);
    var res := Reserve(cfg.budget, c.run.st, e.amountSats, cfg.maxFeeSats, e.domain, e.now).1;
    if res.Ok? {
      var fee := res.value.maxFeeSats;
      NewCallKeeps(c, run', Call(e.invoice, Lower(e.invoice), e.amountSats, fee, e.domain, e.url, AwaitingBackend));
    } else {
      SameBooksKeep(c, run');
    }
  }

  lemma ClaimKeeps(cfg: Config, c: Client, e: Event)
    requires Links(c) && Steppable(c) && e.Claim?
    ensures Links(Step(cfg, c, e))
  {
    var key := Lower(e.invoice);
    if key in c.payments {
      if c.payments[key].Some? {
        KnownClaimKeeps(c, key);
      }
    } else if cfg.supportsFeeLimit {
      FreshClaimKeeps(cfg, c, e);
    }
  }

  lemma SameBooksKeep(c: Client, run': BudgetRuns.Run)
    requires Links(c) && run' == c.run.(latest := run'.latest)
    ensures Links(c.(run := run'))
  {
    forall i | 0 <= i < |c.calls| ensures TokenOk(run', i, c.calls[i]) {
      assert TokenOk(c.run, i, c.calls[i]);
    }
  }

  // ----- answering the request ----------------------------------------------------

  lemma RecordStatusKeeps(cfg: Config, c: Client, known: Known, status: nat)
    requires Links(c) && Steppable(c)
    ensures Links(Step(cfg, c, RecordStatus(known, status)))
  {
    if known in c.returned {
      assert IsPublished(known, c.pushedBy, c.calls);
      var receipts' := c.receipts[known.receipt := c.receipts[known.receipt].(responseStatus := status)];
      SumByUpdate(c.receipts, known.receipt, receipts'[known.receipt], Cost());
      forall r | 0 <= r < |c.receipts| ensures PushedOk(receipts', c.pushedBy, c.calls, r) {
        assert PushedOk(c.receipts, c.pushedBy, c.calls, r);
      }
    }
  }

  // ----- every step, every run ------------------------------------------------------

  lemma LinksKept(cfg: Config, c: Client, e: Event)
    requires Links(c) && Steppable(c)
    ensures Links(Step(cfg, c, e))
  {
    match e
    case Claim(_, _, _, _, _) => ClaimKeeps(cfg, c, e);
    case WalletPays(id, p) => WalletPaysKeeps(cfg, c, id, p);
    case WalletRejects(id) => WalletRejectsKeeps(cfg, c, id);
    case WalletUncertain(id) => WalletUncertainKeeps(cfg, c, id);
    case Cancel(id) => CancelKeeps(cfg, c, id);
    case PushReceipt(id) => PushKeeps(cfg, c, id);
    case SettlePayment(id, now) => SettleKeeps(cfg, c, id, now);
    case Publish(id) => PublishKeeps(cfg, c, id);
    case ReleaseReservation(id) => ReleaseKeeps(cfg, c, id);
    case Withdraw(id) => WithdrawKeeps(cfg, c, id);
    case RecordStatus(known, status) => RecordStatusKeeps(cfg, c, known, status);
  }

  /** A step touches the tracker through at most one call on it. */
  lemma RunIsRunAfter(cfg: Config, c: Client, e: Event)
    requires Steppable(c)
    ensures Step(cfg, c, e).run == RunAfter(cfg, c, e)
  {
  }

  lemma StepKeeps(cfg: Config, c: Client, e: Event)
    requires Inv(cfg, c)
    ensures Steppable(c)
    ensures Inv(cfg, Step(cfg, c, e))
  {
    LinksAreSteppable(c);
    LinksKept(cfg, c, e);
    RunIsRunAfter(cfg, c, e);
    var call := BudgetCall(cfg, c, e);
    if call.Some? {
      BudgetInvariant.StepKeeps(cfg.budget, c.run, call.value);
    }
  }

  lemma NewClientOk(cfg: Config)
    ensures Inv(cfg, NEW_CLIENT)
  {
    BudgetInvariant.NewRunOk(cfg.budget);
  }

  /** The client after any sequence of steps of any number of tasks; by `ExecKeeps`, every step can be taken. */
  ghost function Exec(cfg: Config, events: seq<Event>): Client {
    if events == [] then NEW_CLIENT else
    var before := Exec(cfg, events[..|events| - 1]);
    if Steppable(before) then Step(cfg, before, events[|events| - 1]) else before
  }

  lemma {:induction false} ExecKeeps(cfg: Config, events: seq<Event>)
    ensures Inv(cfg, Exec(cfg, events))
  {
    if events == [] {
      NewClientOk(cfg);
    } else {
      ExecKeeps(cfg, events[..|events| - 1]);
      StepKeeps(cfg, Exec(cfg, events[..|events| - 1]), events[|events| - 1]);
    }
  }

  lemma ExecSteppable(cfg: Config, events: seq<Event>)
    ensures Steppable(Exec(cfg, events))
  {
    ExecKeeps(cfg, events);
    LinksAreSteppable(Exec(cfg, events));
  }

  lemma ExecAppend(cfg: Config, events: seq<Event>, e: Event)
    ensures Steppable(Exec(cfg, events))
    ensures Exec(cfg, events + [e]) == Step(cfg, Exec(cfg, events), e)
  {
    assert (events + [e])[..|events|] == events;
    ExecSteppable(cfg, events);
  }
}
