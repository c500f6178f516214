// Every step of a budget run keeps the invariant of BudgetRuns.dfy.

module BudgetInvariant {
  import opened Numbers
  import opened Sums
  import opened BudgetModel
  import opened BudgetRuns

  // ----- the clock ----------------------------------------------------------

  /** A reading of the clock keeps what the windows say. */
  lemma TickKeeps(b: Budget, r: Run, now: U64)
    requires Inv(b, r)
    ensures Inv(b, Tick(r, now))
  {
    var r' := Tick(r, now);
    forall scope ensures AccountOk(b, r', scope) {
      assert AccountOk(b, r, scope);
      forall w ensures WindowOk(b, r', scope, w) {
        assert WindowOk(b, r, scope, w);
        SlotsGrow(w, r.latest, r'.latest);
      }
    }
  }

  // ----- reservations -------------------------------------------------------

  lemma OutstandingAfterInsert(scope: Scope, pending: map<U64, Pending>, id: U64, p: Pending)
    requires id !in pending
    ensures Outstanding(scope, pending[id := p]) == Outstanding(scope, pending) + PendingIn(scope)(p)
  {
    SumMapInsert(pending, PendingIn(scope), id, p);
  }

  lemma OutstandingAfterRemove(scope: Scope, pending: map<U64, Pending>, id: U64)
    requires id in pending
    ensures Outstanding(scope, pending) == Outstanding(scope, pending - {id}) + PendingIn(scope)(pending[id])
  {
    SumMapRemove(pending, PendingIn(scope), id);
  }

  /** A granted reservation fits every account it is charged to. */
  lemma GrantAdmitted(b: Budget, r: Run, amount: U64, maxFee: U64, domain: Option<string>, now: U64, scope: Scope)
    requires Outstanding(Global, r.st.pending) <= U64_MAX
    requires FeeGranted(b, r.st, amount, maxFee, domain, now).Ok?
    requires In(scope, domain) && LimitsOf(b, scope).Some?
    ensures Outstanding(scope, r.st.pending) <= U64_MAX
    ensures Admits(Checks(LedgerOf(r.st, scope), LimitsOf(b, scope).value, Outstanding(scope, r.st.pending), now),
                   amount + FeeGranted(b, r.st, amount, maxFee, domain, now).value)
  {
    OutstandingWithinGlobal(scope, r.st.pending);
    var out := Outstanding(scope, r.st.pending);
    AllowanceIsGreatest(Checks(LedgerOf(r.st, scope), LimitsOf(b, scope).value, out, now), amount);
  }

  lemma DatedAppend(scope: Scope, w: Window, dated: seq<Dated>, d: Dated)
    ensures Late(scope, w, dated + [d]) == Late(scope, w, dated) + LateIn(scope, w)(d)
  {
    SumByAppend(dated, d, LateIn(scope, w));
  }

  /** What a granted reservation changes, and what it leaves; the clock has been read before. */
  ghost predicate Granted(r: Run, r': Run, p: Pending, d: Dated) {
    && r.st.nextId < U64_MAX && r.st.nextId !in r.st.pending
    && d.domain == p.domain && d.amount == p.amount && r.latest == Max(d.latest, d.now)
    && r'.log == r.log && r'.latest == r.latest && r'.dated == r.dated + [d]
    && r'.st == r.st.(pending := r.st.pending[r.st.nextId := p], nextId := r.st.nextId + 1)
  }

  lemma ReserveGrants(b: Budget, r: Run, amount: U64, maxFee: U64, domain: Option<string>, now: U64)
    requires Sound(r) && Reserve(b, r.st, amount, maxFee, domain, now).1.Ok?
    ensures var fee := FeeGranted(b, r.st, amount, maxFee, domain, now);
            && fee.Ok? && amount + fee.value <= U64_MAX
            && Granted(Tick(r, now), Step(b, r, Reserving(amount, maxFee, domain, now)),
                       Pending(amount + fee.value, domain), Dated(domain, amount + fee.value, now, r.latest))
  {
    GrantFits(b, r.st, amount, maxFee, domain, now);
  }

  /** A window of an account that a granted reservation is charged to, late or within its cap. */
  lemma GrantKeepsWindow(b: Budget, r: Run, r': Run, scope: Scope, w: Window, p: Pending, d: Dated)
    requires WindowOk(b, r, scope, w) && LimitsOf(b, scope).Some?
    requires Granted(r, r', p, d) && LogIsPast(r.log, r.latest) && In(scope, d.domain)
    requires Outstanding(scope, r'.st.pending) == Outstanding(scope, r.st.pending) + d.amount
    requires var cap := w.CapIn(LimitsOf(b, scope).value);
             cap.Some? && w.Slot(d.latest) <= w.Slot(d.now) ==>
               SpentAt(scope, w, w.Slot(d.now), r.log) + Outstanding(scope, r.st.pending) + d.amount <= cap.value
    ensures WindowOk(b, r', scope, w)
  {
    DatedAppend(scope, w, r.dated, d);
    if w.Slot(d.latest) <= w.Slot(d.now) {
      SlotsGrow(w, d.now, r.latest);
      LatestNotPruned(scope, w, r.log, r.latest, r.latest);
    }
  }

  lemma ReserveKeepsAccount(b: Budget, r: Run, r': Run, amount: U64, maxFee: U64, d: Dated, scope: Scope)
    requires Inv(b, r) && !r.st.frozen
    requires var fee := FeeGranted(b, r.st, amount, maxFee, d.domain, d.now);
             fee.Ok? && amount + fee.value <= U64_MAX && Granted(r, r', Pending(amount + fee.value, d.domain), d)
    ensures AccountOk(b, r', scope)
  {
    OutstandingAfterInsert(scope, r.st.pending, r.st.nextId, r'.st.pending[r.st.nextId]);
    assert AccountOk(b, r, scope);
    if In(scope, d.domain) && LimitsOf(b, scope).Some? {
      GrantAdmitted(b, r, amount, maxFee, d.domain, d.now, scope);
      AdmitsRespectsTotal(b, r, scope, d.amount, d.now);
      forall w ensures WindowOk(b, r', scope, w) {
        if w.CapIn(LimitsOf(b, scope).value).Some? && w.Slot(d.latest) <= w.Slot(d.now) {
          AdmitsRespectsWindow(b, r, scope, w, d.amount, d.now);
        }
        GrantKeepsWindow(b, r, r', scope, w, r'.st.pending[r.st.nextId], d);
      }
    } else {
      forall w ensures Late(scope, w, r.dated) <= Late(scope, w, r'.dated) {
        DatedAppend(scope, w, r.dated, d);
      }
      SameBooksKeep(b, r, r', scope);
    }
  }

  lemma ReserveKeeps(b: Budget, r: Run, amount: U64, maxFee: U64, domain: Option<string>, now: U64)
    requires Inv(b, r)
    ensures Inv(b, Step(b, r, Reserving(amount, maxFee, domain, now)))
  {
    TickKeeps(b, r, now);
    if Reserve(b, r.st, amount, maxFee, domain, now).1.Ok? {
      var r' := Step(b, r, Reserving(amount, maxFee, domain, now));
      ReserveGrants(b, r, amount, maxFee, domain, now);
      forall scope ensures AccountOk(b, r', scope) {
        ReserveKeepsAccount(b, Tick(r, now), r', amount, maxFee, r'.dated[|r.dated|], scope);
      }
    }
  }

  // ----- releases -----------------------------------------------------------

  /** Nothing changes for an account that has no more reserved than before, or no limits. */
  lemma SameBooksKeep(b: Budget, r: Run, r': Run, scope: Scope)
    requires AccountOk(b, r, scope)
    requires r'.log == r.log && r'.latest == r.latest
    requires forall w :: Late(scope, w, r.dated) <= Late(scope, w, r'.dated)
    requires LedgerOf(r'.st, scope) == LedgerOf(r.st, scope)
    requires Outstanding(scope, r'.st.pending) <= Outstanding(scope, r.st.pending) || LimitsOf(b, scope).None?
    ensures AccountOk(b, r', scope)
  {
    forall w ensures WindowOk(b, r', scope, w) {
      assert WindowOk(b, r, scope, w) && Late(scope, w, r.dated) <= Late(scope, w, r'.dated);
    }
  }

  lemma ReleaseKeeps(b: Budget, r: Run, id: U64)
    requires Inv(b, r)
    ensures Inv(b, Step(b, r, Releasing(id)))
  {
    if id in r.held {
      var r' := Step(b, r, Releasing(id));
      forall scope ensures AccountOk(b, r', scope) {
        OutstandingAfterRemove(scope, r.st.pending, id);
        SameBooksKeep(b, r, r', scope);
      }
    }
  }

  // ----- settlements --------------------------------------------------------

  lemma RememberedAppend(scope: Scope, w: Window, slot: nat, log: seq<Entry>, e: Entry)
    ensures Remembered(scope, w, slot, log + [e]) ==
            if In(scope, e.domain) && slot + w.Kept() < w.Slot(e.now) then 0
            else Remembered(scope, w, slot, log) + AmountAt(scope, w, slot)(e)
    ensures LastSettled(scope, log + [e]) == if In(scope, e.domain) then e.now else LastSettled(scope, log)
    ensures SettledAt(scope, w, slot, log) ==> SettledAt(scope, w, slot, log + [e])
    ensures In(scope, e.domain) ==> SettledAt(scope, w, w.Slot(e.now), log + [e])
  {
    var log' := log + [e];
    assert log'[..|log|] == log && log'[|log|] == e;
    assert forall i :: 0 <= i < |log| ==> log'[i] == log[i];
  }

  /** Recording a payment and pruning keeps one map of buckets in step with the log, whatever the clock shows. */
  lemma RecordTracks(m: map<nat, U64>, scope: Scope, w: Window, log: seq<Entry>, e: Entry)
    requires BucketsTrack(m, scope, w, log) && In(scope, e.domain)
    ensures var top := w.Slot(e.now);
            BucketsTrack(Retain(AddTo(m, top, e.amount), SatSub(top, w.Kept())), scope, w, log + [e])
  {
    var top := w.Slot(e.now);
    var m' := Retain(AddTo(m, top, e.amount), SatSub(top, w.Kept()));
    forall slot: nat
      ensures Bucket(m', slot) == Cap(Remembered(scope, w, slot, log + [e]))
    {
      RememberedAppend(scope, w, slot, log, e);
      assert Bucket(m, slot) == Cap(Remembered(scope, w, slot, log));
    }
    forall slot: nat | slot in m'
      ensures SettledAt(scope, w, slot, log + [e]) && w.Slot(LastSettled(scope, log + [e])) <= slot + w.Kept()
    {
      RememberedAppend(scope, w, slot, log, e);
    }
  }

  lemma OtherAccountTracks(m: map<nat, U64>, scope: Scope, w: Window, log: seq<Entry>, e: Entry)
    requires BucketsTrack(m, scope, w, log) && !In(scope, e.domain)
    ensures BucketsTrack(m, scope, w, log + [e])
  {
    forall slot: nat
      ensures Remembered(scope, w, slot, log + [e]) == Remembered(scope, w, slot, log)
      ensures SettledAt(scope, w, slot, log) ==> SettledAt(scope, w, slot, log + [e])
      ensures LastSettled(scope, log + [e]) == LastSettled(scope, log)
    {
      RememberedAppend(scope, w, slot, log, e);
    }
  }

  /** What a settlement changes, and what it leaves, seen from one account; the clock has been read before. */
  ghost predicate SettledIn(r: Run, r': Run, scope: Scope, e: Entry, d: Dated) {
    && d.domain == e.domain && d.amount == e.amount && d.now == e.now && r.latest == Max(d.latest, d.now)
    && r'.log == r.log + [e] && r'.latest == r.latest && r'.dated == r.dated + [d]
    && LedgerOf(r'.st, scope) ==
         (if In(scope, e.domain) then Record(LedgerOf(r.st, scope), e.amount, e.now) else LedgerOf(r.st, scope))
    && Outstanding(scope, r'.st.pending) + (if In(scope, e.domain) then e.reserved else 0)
         == Outstanding(scope, r.st.pending)
  }

  lemma SettleKeepsCap(cap: Option<U64>, r: Run, r': Run, scope: Scope, w: Window, e: Entry, d: Dated)
    requires CapKept(cap, r, scope, w) && SettledIn(r, r', scope, e, d)
    ensures CapKept(cap, r', scope, w)
  {
    LogAppend(scope, r.log, e);
    LogAppendAt(scope, w, r.log, e);
    DatedAppend(scope, w, r.dated, d);
    SlotsGrow(w, d.now, r.latest);
  }

  lemma SettleKeepsWindow(b: Budget, r: Run, r': Run, scope: Scope, w: Window, e: Entry, d: Dated)
    requires WindowOk(b, r, scope, w) && SettledIn(r, r', scope, e, d)
    ensures WindowOk(b, r', scope, w)
  {
    if In(scope, e.domain) {
      RecordTracks(w.BucketsIn(LedgerOf(r.st, scope)), scope, w, r.log, e);
    } else {
      OtherAccountTracks(w.BucketsIn(LedgerOf(r.st, scope)), scope, w, r.log, e);
    }
    if LimitsOf(b, scope).Some? {
      SettleKeepsCap(w.CapIn(LimitsOf(b, scope).value), r, r', scope, w, e, d);
    }
  }

  lemma SettleKeepsAccount(b: Budget, r: Run, r': Run, scope: Scope, e: Entry, d: Dated)
    requires AccountOk(b, r, scope) && SettledIn(r, r', scope, e, d)
    ensures AccountOk(b, r', scope)
  {
    LogAppend(scope, r.log, e);
    forall w ensures WindowOk(b, r', scope, w) {
      SettleKeepsWindow(b, r, r', scope, w, e, d);
    }
  }

  lemma ChargeOneAccount(st: TrackerState, domain: Option<string>, amount: U64, now: U64, scope: Scope)
    ensures LedgerOf(Charge(st, domain, amount, now), scope) ==
            if In(scope, domain) then Record(LedgerOf(st, scope), amount, now) else LedgerOf(st, scope)
  {
  }

  lemma SettlesIn(b: Budget, r: Run, id: U64, amount: U64, now: U64, violation: bool, scope: Scope)
    requires Sound(r) && id in r.held
    ensures var p := r.st.pending[id];
            SettledIn(Tick(r, now), Step(b, r, Settling(id, amount, now, violation)), scope,
                      Entry(p.amount, amount, p.domain, now, violation), Dated(p.domain, amount, now, r.latest))
  {
    OutstandingAfterRemove(scope, r.st.pending, id);
    ChargeOneAccount(Release(r.st, id), r.st.pending[id].domain, amount, now, scope);
  }

  lemma SettleKeepsDomains(r: Run, r': Run, e: Entry)
    requires DomainsOk(r)
    requires r'.st.domains == Charge(r.st, e.domain, e.amount, e.now).domains
    requires r'.log == r.log + [e]
    ensures DomainsOk(r')
  {
    LogAppend(Global, r.log, e);
    if e.domain.Some? {
      var d := e.domain.value;
      var rest := r.st.domains - {d};
      if d in r.st.domains {
        SumMapRemove(r.st.domains, LedgerTotal(), d);
      } else {
        assert rest == r.st.domains;
      }
      SumMapInsert(rest, LedgerTotal(), d, r'.st.domains[d]);
      assert rest[d := r'.st.domains[d]] == r'.st.domains;
    }
  }

  /** What a settlement changes, and what it leaves, over all accounts. */
  ghost predicate SettledRun(r: Run, r': Run, e: Entry, d: Dated) {
    && Sound(r') && r'.log == r.log + [e] && r'.latest == r.latest && e.now <= r.latest
    && r'.st.domains == Charge(r.st, e.domain, e.amount, e.now).domains
    && (r'.st.frozen <==> r.st.frozen || Violates(e))
    && forall scope :: SettledIn(r, r', scope, e, d)
  }

  lemma SettledRunKeeps(b: Budget, r: Run, r': Run, e: Entry, d: Dated)
    requires Inv(b, r) && SettledRun(r, r', e, d)
    ensures Inv(b, r')
  {
    forall scope ensures AccountOk(b, r', scope) {
      assert SettledIn(r, r', scope, e, d);
      SettleKeepsAccount(b, r, r', scope, e, d);
    }
    SettleKeepsDomains(r, r', e);
    FrozenAppend(r, r', e);
  }

  lemma SettlesRun(b: Budget, r: Run, id: U64, amount: U64, now: U64, violation: bool)
    requires Sound(r) && id in r.held
    ensures var p := r.st.pending[id];
            SettledRun(Tick(r, now), Step(b, r, Settling(id, amount, now, violation)),
                       Entry(p.amount, amount, p.domain, now, violation), Dated(p.domain, amount, now, r.latest))
  {
    var p := r.st.pending[id];
    forall scope
      ensures SettledIn(Tick(r, now), Step(b, r, Settling(id, amount, now, violation)), scope,
                        Entry(p.amount, amount, p.domain, now, violation), Dated(p.domain, amount, now, r.latest))
    {
      SettlesIn(b, r, id, amount, now, violation, scope);
    }
  }

  lemma SettleKeeps(b: Budget, r: Run, id: U64, amount: U64, now: U64, violation: bool)
    requires Inv(b, r)
    ensures Inv(b, Step(b, r, Settling(id, amount, now, violation)))
  {
    if id in r.held {
      var p := r.st.pending[id];
      TickKeeps(b, r, now);
      SettlesRun(b, r, id, amount, now, violation);
      SettledRunKeeps(b, Tick(r, now), Step(b, r, Settling(id, amount, now, violation)),
                      Entry(p.amount, amount, p.domain, now, violation), Dated(p.domain, amount, now, r.latest));
    }
  }

  lemma FrozenAppend(r: Run, r': Run, e: Entry)
    requires FrozenOk(r)
    requires r'.log == r.log + [e]
    requires r'.st.frozen <==> r.st.frozen || Violates(e)
    ensures FrozenOk(r')
  {
    assert r'.log[|r.log|] == e;
    assert forall i :: 0 <= i < |r.log| ==> r'.log[i] == r.log[i];
  }

  // ----- every run ----------------------------------------------------------

  lemma StepKeeps(b: Budget, r: Run, e: Event)
    requires Inv(b, r)
    ensures Inv(b, Step(b, r, e))
  {
    match e
    case Reserving(amount, maxFee, domain, now) => ReserveKeeps(b, r, amount, maxFee, domain, now);
    case Settling(id, amount, now, violation) => SettleKeeps(b, r, id, amount, now, violation);
    case Releasing(id) => ReleaseKeeps(b, r, id);
    case Dropping(id) => DropKeeps(b, r, id);
  }

  lemma DropKeeps(b: Budget, r: Run, id: U64)
    requires Inv(b, r)
    ensures Inv(b, Step(b, r, Dropping(id)))
  {
    var r' := Step(b, r, Dropping(id));
    forall scope ensures AccountOk(b, r', scope) {
      SameBooksKeep(b, r, r', scope);
    }
  }

  lemma NewRunOk(b: Budget)
    ensures Inv(b, NEW_RUN)
  {
    forall scope ensures AccountOk(b, NEW_RUN, scope) {
      assert LedgerOf(NEW_TRACKER, scope) == EMPTY_LEDGER;
    }
  }

  /** The invariant holds after every sequence of calls, whatever callers and clock do. */
  lemma {:induction false} ExecKeeps(b: Budget, events: seq<Event>)
    ensures Inv(b, Exec(b, events))
  {
    if events == [] {
      NewRunOk(b);
    } else {
      ExecKeeps(b, events[..|events| - 1]);
      StepKeeps(b, Exec(b, events[..|events| - 1]), events[|events| - 1]);
    }
  }
}
