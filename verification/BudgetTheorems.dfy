// What the budget tracker guarantees over every run.

module BudgetTheorems {
  import opened Numbers
  import opened Sums
  import opened BudgetModel
  import opened BudgetRuns
  import opened BudgetInvariant
  import opened BudgetSpec

  /** No settlement of the account went beyond its own reservation. */
  ghost predicate NoOverspend(log: seq<Entry>) {
    forall i :: 0 <= i < |log| ==> log[i].amount <= log[i].reserved
  }

  lemma {:induction false} NoOverspendNoExcess(scope: Scope, log: seq<Entry>)
    requires NoOverspend(log)
    ensures Excess(scope, log) == 0
  {
    if log == [] {
    } else {
      var n := |log| - 1;
      assert forall i :: 0 <= i < n ==> log[..n][i] == log[i];
      NoOverspendNoExcess(scope, log[..n]);
      assert log[n].amount <= log[n].reserved;
    }
  }

  lemma BucketsWithinSpent(r: Run, scope: Scope, w: Window)
    requires BucketsTrack(w.BucketsIn(LedgerOf(r.st, scope)), scope, w, r.log)
    ensures forall slot: nat :: Bucket(w.BucketsIn(LedgerOf(r.st, scope)), slot) <= SpentAt(scope, w, slot, r.log)
  {
    forall slot: nat
      ensures Bucket(w.BucketsIn(LedgerOf(r.st, scope)), slot) <= SpentAt(scope, w, slot, r.log)
    {
      RememberedWithin(scope, w, slot, r.log);
    }
  }

  lemma WindowOkIsWithin(b: Budget, l: Limits, r: Run, scope: Scope, w: Window)
    requires WindowOk(b, r, scope, w) && Restricts(b, scope, l)
    ensures WindowWithin(l, r, scope, w, Excess(scope, r.log) + Late(scope, w, r.dated))
  {
    RestrictsIsLimitsOf(b, scope, l);
    BucketsWithinSpent(r, scope, w);
    forall slot: nat
      ensures SettledDuring(scope, 3600, slot, r.log) == SpentAt(scope, Hour, slot, r.log)
      ensures SettledDuring(scope, 86400, slot, r.log) == SpentAt(scope, Day, slot, r.log)
    {
      SettledDuringIsSpentAt(scope, slot, r.log);
    }
  }

  /**
   * In every run, whatever the clock shows, an hour or day ends over its cap by
   * at most what settlements took beyond their reservations, and what was
   * reserved or settled late: at a reading in an hour or day that, by an earlier
   * reading, was over.
   */
  lemma {:induction false} WindowOverspendIsBounded(b: Budget, events: seq<Event>, scope: Scope, l: Limits, w: Window)
    requires Restricts(b, scope, l)
    ensures var r := Exec(b, events);
            WindowWithin(l, r, scope, w, Excess(scope, r.log) + Late(scope, w, r.dated))
  {
    ExecKeeps(b, events);
    assert AccountOk(b, Exec(b, events), scope);
    WindowOkIsWithin(b, l, Exec(b, events), scope, w);
  }

  /**
   * Without overspend and without late readings no window is ever over its cap,
   * no matter in which window the money was reserved.
   */
  lemma {:induction false} WindowLimitsSurviveRollover(
      b: Budget, events: seq<Event>, scope: Scope, l: Limits, w: Window)
    requires Restricts(b, scope, l)
    requires Late(scope, w, Exec(b, events).dated) == 0 && NoOverspend(Exec(b, events).log)
    ensures WindowWithin(l, Exec(b, events), scope, w, 0)
  {
    WindowOverspendIsBounded(b, events, scope, l, w);
    NoOverspendNoExcess(scope, Exec(b, events).log);
  }

  /** The reading of the clock that a call comes with. */
  function ReadingOf(e: Event): Option<U64> {
    match e
    case Reserving(_, _, _, now) => Some(now)
    case Settling(_, _, now, _) => Some(now)
    case _ => None
  }

  /** No reading falls into an earlier hour, or day, than one before it. */
  ghost predicate InOrder(events: seq<Event>, w: Window) {
    forall i, j :: 0 <= i < j < |events| && ReadingOf(events[i]).Some? && ReadingOf(events[j]).Some? ==>
      w.Slot(ReadingOf(events[i]).value) <= w.Slot(ReadingOf(events[j]).value)
  }

  ghost predicate WasRead(events: seq<Event>, now: nat) {
    exists i :: 0 <= i < |events| && ReadingOf(events[i]) == Some(now)
  }

  lemma StepReads(b: Budget, r: Run, e: Event)
    requires Sound(r)
    ensures Step(b, r, e).latest == r.latest || ReadingOf(e) == Some(Step(b, r, e).latest)
  {
  }

  lemma StillRead(events: seq<Event>, now: nat)
    requires events != []
    requires WasRead(events[..|events| - 1], now) || ReadingOf(events[|events| - 1]) == Some(now)
    ensures WasRead(events, now)
  {
    var n := |events| - 1;
    if ReadingOf(events[n]) != Some(now) {
      var i :| 0 <= i < n && ReadingOf(events[..n][i]) == Some(now);
      assert ReadingOf(events[i]) == Some(now);
    }
  }

  lemma {:induction false} LatestWasRead(b: Budget, events: seq<Event>)
    ensures Exec(b, events).latest == 0 || WasRead(events, Exec(b, events).latest)
  {
    if events == [] {
    } else {
      var n := |events| - 1;
      LatestWasRead(b, events[..n]);
      StepReads(b, Exec(b, events[..n]), events[n]);
      if Exec(b, events).latest != 0 {
        StillRead(events, Exec(b, events).latest);
      }
    }
  }

  /** The next reading is not before the latest so far, if the readings are in order. */
  lemma NextIsInOrder(b: Budget, events: seq<Event>, w: Window)
    requires InOrder(events, w) && events != [] && ReadingOf(events[|events| - 1]).Some?
    ensures w.Slot(Exec(b, events[..|events| - 1]).latest) <= w.Slot(ReadingOf(events[|events| - 1]).value)
  {
    var n := |events| - 1;
    var latest := Exec(b, events[..n]).latest;
    LatestWasRead(b, events[..n]);
    if latest == 0 {
      SlotsGrow(w, 0, ReadingOf(events[n]).value);
    } else {
      var i :| 0 <= i < n && ReadingOf(events[..n][i]) == Some(latest);
      assert ReadingOf(events[i]) == Some(latest);
    }
  }

  lemma PrefixInOrder(events: seq<Event>, w: Window)
    requires InOrder(events, w) && events != []
    ensures InOrder(events[..|events| - 1], w)
  {
  }

  lemma StepIsLate(b: Budget, r: Run, e: Event, scope: Scope, w: Window)
    requires Sound(r)
    requires ReadingOf(e).Some? ==> w.Slot(r.latest) <= w.Slot(ReadingOf(e).value)
    ensures Late(scope, w, Step(b, r, e).dated) == Late(scope, w, r.dated)
  {
    var dated' := Step(b, r, e).dated;
    if |dated'| > |r.dated| {
      DatedAppend(scope, w, r.dated, dated'[|r.dated|]);
    }
  }

  /** In particular nothing is late if the hour, or the day, never goes back. */
  lemma {:induction false} InOrderIsNotLate(b: Budget, events: seq<Event>, scope: Scope, w: Window)
    requires InOrder(events, w)
    ensures Late(scope, w, Exec(b, events).dated) == 0
  {
    if events == [] {
    } else {
      var n := |events| - 1;
      PrefixInOrder(events, w);
      InOrderIsNotLate(b, events[..n], scope, w);
      if ReadingOf(events[n]).Some? {
        NextIsInOrder(b, events, w);
      }
      StepIsLate(b, Exec(b, events[..n]), events[n], scope, w);
    }
  }

  // ----- the bound on late readings is reached ------------------------------------------

  /** A cap of 100 on one kind of window, and no other. */
  ghost function HundredIn(w: Window): Budget {
    Budget(if w.Hour? then Limits(None, Some(100), None, None) else Limits(None, None, Some(100), None), map[])
  }

  /** Two payments of 100 settled at `t1`, the first reserved at `t1` and the second at `t2`. */
  ghost function TwoPayments(t1: U64, t2: U64): seq<Event> {
    [Reserving(100, 0, None, t1)] + [Settling(0, 100, t1, false)]
    + [Reserving(100, 0, None, t2)] + [Settling(1, 100, t1, false)]
  }

  lemma HundredFits(w: Window, l: LedgerState, now: U64)
    requires l.total <= 100
    ensures Admits(Checks(l, HundredIn(w).limits, 0, now), 100) <==> Bucket(w.BucketsIn(l), w.Slot(now)) == 0
  {
    AdmitsFive(Checks(l, HundredIn(w).limits, 0, now), 100);
  }

  lemma FeeOfHundred(w: Window, s: TrackerState, now: U64)
    requires s.pending == map[] && s.global.total <= 100
    ensures Outstanding(Global, s.pending) == 0
    ensures FeeGranted(HundredIn(w), s, 100, 0, None, now) ==
            if Bucket(w.BucketsIn(s.global), w.Slot(now)) == 0 then Ok(0) else Err(BudgetExceeded)
  {
    var cs := Checks(s.global, HundredIn(w).limits, 0, now);
    assert Outstanding(Global, s.pending) == 0;
    HundredFits(w, s.global, now);
    AllowanceIsGreatest(cs, 100);
    assert ScopeAllowance(HundredIn(w), s, Global, 100, now) == Allowance(cs, 100);
  }

  /** With nothing reserved, 100 sats are granted exactly if the window is empty so far. */
  lemma GrantOfHundred(w: Window, r: Run, now: U64)
    requires Sound(r) && r.st.pending == map[] && !r.st.frozen && r.st.global.total <= 100 && r.st.nextId < U64_MAX
    ensures var r' := Step(HundredIn(w), r, Reserving(100, 0, None, now));
            var bucket := Bucket(w.BucketsIn(r.st.global), w.Slot(now));
            && (bucket == 0 ==>
                  && r'.st == r.st.(pending := map[r.st.nextId := Pending(100, None)], nextId := r.st.nextId + 1)
                  && r'.held == r.held + {r.st.nextId})
            && (bucket > 0 ==> r'.st == r.st && r'.held == r.held)
            && r'.log == r.log && r'.latest == Max(r.latest, now)
            && r'.dated == if bucket == 0 then r.dated + [Dated(None, 100, now, r.latest)] else r.dated
  {
    FeeOfHundred(w, r.st, now);
  }

  lemma SettlementOfHundred(b: Budget, r: Run, id: U64, now: U64)
    requires Sound(r) && id in r.held && r.st.pending == map[id := Pending(100, None)]
    ensures var r' := Step(b, r, Settling(id, 100, now, false));
            && r'.st == r.st.(pending := map[], global := Record(r.st.global, 100, now))
            && r'.held == r.held - {id}
            && r'.log == r.log + [Entry(100, 100, None, now, false)]
            && r'.latest == Max(r.latest, now) && r'.dated == r.dated + [Dated(None, 100, now, r.latest)]
  {
    assert r.st.pending - {id} == map[];
  }

  /** The run once its first payment is settled. */
  ghost function Once(w: Window, t1: U64): (r: Run)
    ensures Sound(r)
  {
    Step(HundredIn(w), Step(HundredIn(w), NEW_RUN, Reserving(100, 0, None, t1)), Settling(0, 100, t1, false))
  }

  lemma OncePaid(w: Window, t1: U64)
    ensures var r := Once(w, t1);
            && r.st == NEW_TRACKER.(nextId := 1, global := Record(EMPTY_LEDGER, 100, t1))
            && r.held == {} && r.latest == t1
            && r.dated == [Dated(None, 100, t1, 0)] + [Dated(None, 100, t1, t1)]
            && r.log == [Entry(100, 100, None, t1, false)]
  {
    GrantOfHundred(w, NEW_RUN, t1);
    SettlementOfHundred(HundredIn(w), Step(HundredIn(w), NEW_RUN, Reserving(100, 0, None, t1)), 0, t1);
  }

  lemma OneBucket(w: Window, t1: U64, t2: U64)
    ensures var bucket := Bucket(w.BucketsIn(Record(EMPTY_LEDGER, 100, t1)), w.Slot(t2));
            bucket == if w.Slot(t2) == w.Slot(t1) then 100 else 0
  {
  }

  /** The run with both payments: the second one goes through only if it meets an empty window. */
  ghost predicate EndsAsExpected(r: Run, w: Window, t1: U64, t2: U64) {
    var e := Entry(100, 100, None, t1, false);
    var once := [Dated(None, 100, t1, 0)] + [Dated(None, 100, t1, t1)];
    if w.Slot(t1) == w.Slot(t2) then r.log == [e] && r.dated == once
    else r.log == [e, e] && r.dated == once + [Dated(None, 100, t2, t1)] + [Dated(None, 100, t1, Max(t1, t2))]
  }

  lemma SecondPayment(w: Window, t1: U64, t2: U64)
    ensures EndsAsExpected(Step(HundredIn(w), Step(HundredIn(w), Once(w, t1), Reserving(100, 0, None, t2)),
                                Settling(1, 100, t1, false)), w, t1, t2)
  {
    OncePaid(w, t1);
    OneBucket(w, t1, t2);
    GrantOfHundred(w, Once(w, t1), t2);
    if w.Slot(t1) != w.Slot(t2) {
      SettlementOfHundred(HundredIn(w), Step(HundredIn(w), Once(w, t1), Reserving(100, 0, None, t2)), 1, t1);
    }
  }

  lemma BothPayments(w: Window, t1: U64, t2: U64)
    ensures EndsAsExpected(Exec(HundredIn(w), TwoPayments(t1, t2)), w, t1, t2)
  {
    var b := HundredIn(w);
    var e1, e2 := [Reserving(100, 0, None, t1)], Settling(0, 100, t1, false);
    var e3, e4 := Reserving(100, 0, None, t2), Settling(1, 100, t1, false);
    ExecOne(b, e1[0]);
    ExecAppend(b, e1, e2);
    ExecAppend(b, e1 + [e2], e3);
    ExecAppend(b, e1 + [e2] + [e3], e4);
    SecondPayment(w, t1, t2);
  }

  lemma ExecOne(b: Budget, e: Event)
    ensures Exec(b, [e]) == Step(b, NEW_RUN, e)
  {
    assert [e][..0] == [];
  }

  lemma SpentInSlot(w: Window, t1: U64)
    ensures var e := Entry(100, 100, None, t1, false);
            && SpentAt(Global, w, w.Slot(t1), [e]) == 100 && SpentAt(Global, w, w.Slot(t1), [e, e]) == 200
            && NoOverspend([e]) && NoOverspend([e, e])
  {
    var e := Entry(100, 100, None, t1, false);
    SumByAppend([], e, AmountAt(Global, w, w.Slot(t1)));
    SumByAppend([e], e, AmountAt(Global, w, w.Slot(t1)));
    assert [] + [e] == [e] && [e] + [e] == [e, e];
  }

  lemma LateOnce(w: Window, r: Run, t1: U64, t2: U64)
    requires EndsAsExpected(r, w, t1, t2)
    ensures Late(Global, w, r.dated) == if w.Slot(t1) == w.Slot(t2) then 0 else 100
  {
    var d1, d2 := Dated(None, 100, t1, 0), Dated(None, 100, t1, t1);
    var d3, d4 := Dated(None, 100, t2, t1), Dated(None, 100, t1, Max(t1, t2));
    SlotsGrow(w, 0, t1);
    SlotsGrow(w, Min(t1, t2), Max(t1, t2));
    DatedAppend(Global, w, [], d1);
    assert [] + [d1] == [d1];
    DatedAppend(Global, w, [d1], d2);
    DatedAppend(Global, w, [d1] + [d2], d3);
    DatedAppend(Global, w, [d1] + [d2] + [d3], d4);
  }

  /**
   * The bound on late readings is reached. For any two readings in different
   * hours (or days), a run whose clock goes from one to the other and back comes
   * late with 100 and ends that hour (or day) 100 over its cap, without any
   * overspend; the same run keeps the cap if the hours (or days) agree.
   */
  lemma {:induction false} LateBoundIsReached(w: Window, t1: U64, t2: U64)
    ensures var r := Exec(HundredIn(w), TwoPayments(t1, t2));
            && NoOverspend(r.log)
            && SpentAt(Global, w, w.Slot(t1), r.log) == 100 + Late(Global, w, r.dated)
            && Late(Global, w, r.dated) == if w.Slot(t1) == w.Slot(t2) then 0 else 100
  {
    BothPayments(w, t1, t2);
    SpentInSlot(w, t1);
    LateOnce(w, Exec(HundredIn(w), TwoPayments(t1, t2)), t1, t2);
  }

  lemma ExecAppend(b: Budget, events: seq<Event>, e: Event)
    ensures Exec(b, events + [e]) == Step(b, Exec(b, events), e)
  {
    assert (events + [e])[..|events|] == events;
  }

  /**
   * In every reachable state, frozen or not, settled plus reserved exceeds the
   * cap of an account by no more than what settlements took beyond their own
   * reservations. The tracker's saturating total is within the same bound.
   */
  lemma {:induction false} OverspendIsBounded(b: Budget, events: seq<Event>, scope: Scope, l: Limits)
    requires Restricts(b, scope, l)
    ensures var r := Exec(b, events);
            var cap := if l.totalMax.Some? then l.totalMax.value else 0xFFFF_FFFF_FFFF_FFFF;
            && SettledBy(scope, r.log) + ReservedBy(scope, r.st.pending) <= cap + Excess(scope, r.log)
            && LedgerOf(r.st, scope).total + ReservedBy(scope, r.st.pending) <= cap + Excess(scope, r.log)
  {
    ExecKeeps(b, events);
    var r := Exec(b, events);
    assert AccountOk(b, r, scope);
    RestrictsIsLimitsOf(b, scope, l);
    SettledIsSpent(scope, r.log);
    ReservedIsOutstanding(scope, r.st.pending);
  }

  /** The tracker is frozen exactly when some settlement violated its authorization. */
  lemma {:induction false} FrozenIffViolated(b: Budget, events: seq<Event>)
    ensures var r := Exec(b, events);
            r.st.frozen <==> exists i :: 0 <= i < |r.log| && Violates(r.log[i])
  {
    ExecKeeps(b, events);
  }

  /** From the first state to the second: still frozen, no id used up, no reservation made, no token handed out. */
  ghost predicate StaysFrozen(r: Run, r': Run) {
    && r.st.frozen && r'.st.frozen
    && r'.st.nextId == r.st.nextId && r'.held <= r.held && r'.st.pending.Keys <= r.st.pending.Keys
  }

  lemma StaysFrozenOn(r: Run, r': Run, r'': Run)
    requires StaysFrozen(r, r') && StaysFrozen(r', r'')
    ensures StaysFrozen(r, r'')
  {
  }

  lemma ExecExtend(b: Budget, before: seq<Event>, after: seq<Event>)
    requires after != []
    ensures Exec(b, before + after) == Step(b, Exec(b, before + after[..|after| - 1]), after[|after| - 1])
  {
    var n := |after| - 1;
    assert before + after == (before + after[..n]) + [after[n]];
    ExecAppend(b, before + after[..n], after[n]);
  }

  /** After the first violation the tracker stays frozen and nothing is reserved any more. */
  lemma {:induction false} FrozenForGood(b: Budget, before: seq<Event>, after: seq<Event>)
    requires Exec(b, before).st.frozen
    ensures StaysFrozen(Exec(b, before), Exec(b, before + after))
  {
    if after == [] {
      assert before + after == before;
    } else {
      var n := |after| - 1;
      FrozenForGood(b, before, after[..n]);
      ExecExtend(b, before, after);
      FrozenStep(b, Exec(b, before + after[..n]), after[n]);
      StaysFrozenOn(Exec(b, before), Exec(b, before + after[..n]), Exec(b, before + after));
    }
  }

  lemma FrozenStep(b: Budget, r: Run, e: Event)
    requires Sound(r) && r.st.frozen
    ensures StaysFrozen(r, Step(b, r, e))
  {
  }

  /** The caps as they read off the full, unpruned log of settlements. */
  ghost function LogChecks(log: seq<Entry>, scope: Scope, limits: Limits, pending: U64, now: U64): seq<Check> {
    [ Check(0, limits.perRequestMax),
      Check(SatAdd(Cap(Spent(scope, log)), pending), limits.totalMax),
      Check(SatAdd(Cap(SpentAt(scope, Hour, Hour.Slot(now), log)), pending), limits.hourlyMax),
      Check(SatAdd(Cap(SpentAt(scope, Day, Day.Slot(now), log)), pending), limits.dailyMax),
      Check(SatAdd(Cap(Spent(scope, log)), pending), Some(U64_MAX)) ]
  }

  /**
   * Pruning is invisible, whatever the clock did before: every line of the table
   * of caps, and so the allowance for any amount, is that of the full log, unless
   * the account has settled something more than 48 hours later.
   */
  lemma {:induction false} PruningIsInvisible(
      b: Budget, events: seq<Event>, scope: Scope, limits: Limits, pending: U64, now: U64)
    requires NotPruned(scope, Hour, Exec(b, events).log, now)
    ensures var r := Exec(b, events);
            Checks(LedgerOf(r.st, scope), limits, pending, now) == LogChecks(r.log, scope, limits, pending, now)
  {
    ExecKeeps(b, events);
    BucketsHidePruning(b, Exec(b, events), scope, limits, pending, now);
  }

  lemma BucketsHidePruning(b: Budget, r: Run, scope: Scope, limits: Limits, pending: U64, now: U64)
    requires Inv(b, r) && NotPruned(scope, Hour, r.log, now)
    ensures Checks(LedgerOf(r.st, scope), limits, pending, now) == LogChecks(r.log, scope, limits, pending, now)
  {
    assert AccountOk(b, r, scope);
    HoursCoverDays(scope, r.log, now);
    BucketIsExact(b, r, scope, Hour, now);
    BucketIsExact(b, r, scope, Day, now);
  }

  /** The last settlement of the account is in the latest of its hours, or days. */
  ghost predicate LastIsLatest(scope: Scope, w: Window, log: seq<Entry>) {
    forall i :: 0 <= i < |log| && In(scope, log[i].domain) ==>
      w.Slot(log[i].now) <= w.Slot(LastSettled(scope, log))
  }

  lemma {:induction false} KeysInRange(keys: set<nat>, lo: nat, hi: nat)
    requires forall k :: k in keys ==> lo <= k <= hi
    ensures lo <= hi ==> |keys| <= hi - lo + 1
    ensures lo > hi ==> keys == {}
    decreases hi
  {
    if lo <= hi {
      var rest := keys - {hi};
      if hi == 0 {
        assert rest == {};
      } else {
        KeysInRange(rest, lo, hi - 1);
      }
      assert |keys| <= |rest| + 1 by {
        if hi in keys {
          assert keys == rest + {hi};
        } else {
          assert keys == rest;
        }
      }
    }
  }

  lemma KeysAreFew(m: map<nat, U64>, scope: Scope, w: Window, log: seq<Entry>)
    requires BucketsTrack(m, scope, w, log) && LastIsLatest(scope, w, log)
    ensures |m| <= w.Kept() + 1
  {
    var top := w.Slot(LastSettled(scope, log));
    forall slot | slot in m.Keys ensures SatSub(top, w.Kept()) <= slot <= top {
      assert SettledAt(scope, w, slot, log);
    }
    KeysInRange(m.Keys, SatSub(top, w.Kept()), top);
    assert |m| == |m.Keys|;
  }

  lemma {:induction false} InOrderLastIsLatest(b: Budget, events: seq<Event>, scope: Scope, w: Window)
    requires InOrder(events, w)
    ensures LastIsLatest(scope, w, Exec(b, events).log)
  {
    if events == [] {
    } else {
      var n := |events| - 1;
      PrefixInOrder(events, w);
      InOrderLastIsLatest(b, events[..n], scope, w);
      ExecKeeps(b, events[..n]);
      if ReadingOf(events[n]).Some? {
        NextIsInOrder(b, events, w);
      }
      StepLastIsLatest(b, Exec(b, events[..n]), events[n], scope, w);
    }
  }

  lemma StepLastIsLatest(b: Budget, r: Run, e: Event, scope: Scope, w: Window)
    requires Sound(r) && LastIsLatest(scope, w, r.log) && LogIsPast(r.log, r.latest)
    requires ReadingOf(e).Some? ==> w.Slot(r.latest) <= w.Slot(ReadingOf(e).value)
    ensures LastIsLatest(scope, w, Step(b, r, e).log)
  {
    var log' := Step(b, r, e).log;
    if |log'| > |r.log| {
      LastOfAppended(scope, w, r.log, r.latest, log'[|r.log|]);
    }
  }

  lemma LastOfAppended(scope: Scope, w: Window, log: seq<Entry>, latest: nat, e: Entry)
    requires LastIsLatest(scope, w, log) && LogIsPast(log, latest) && w.Slot(latest) <= w.Slot(e.now)
    ensures LastIsLatest(scope, w, log + [e])
  {
    RememberedAppend(scope, w, 0, log, e);
    forall i | 0 <= i < |log| ensures w.Slot((log + [e])[i].now) <= w.Slot(e.now) {
      SlotsGrow(w, log[i].now, latest);
    }
  }

  /** At most 49 hours and 3 days are kept of an account whose last settlement is in its latest hour, or day. */
  lemma {:induction false} BucketsAreFew(b: Budget, events: seq<Event>, scope: Scope)
    ensures var r := Exec(b, events);
            && (LastIsLatest(scope, Hour, r.log) ==> |LedgerOf(r.st, scope).hourly| <= 49)
            && (LastIsLatest(scope, Day, r.log) ==> |LedgerOf(r.st, scope).daily| <= 3)
  {
    ExecKeeps(b, events);
    var r := Exec(b, events);
    assert AccountOk(b, r, scope) && WindowOk(b, r, scope, Hour) && WindowOk(b, r, scope, Day);
    if LastIsLatest(scope, Hour, r.log) {
      KeysAreFew(LedgerOf(r.st, scope).hourly, scope, Hour, r.log);
    }
    if LastIsLatest(scope, Day, r.log) {
      KeysAreFew(LedgerOf(r.st, scope).daily, scope, Day, r.log);
    }
  }

  /** What a reservation comes to: refused without a trace, or held for exactly what was granted. */
  ghost predicate GrantedOrRefused(r: Run, amount: U64, domain: Option<string>,
                                   st: TrackerState, res: Result<Reservation, ClientError>)
  {
    match res
    case Err(e) => e == BudgetExceeded && st == r.st
    case Ok(reservation) =>
      && reservation.id == r.st.nextId < U64_MAX
      && amount + reservation.maxFeeSats <= U64_MAX
      && st == r.st.(pending := r.st.pending[r.st.nextId := Pending(amount + reservation.maxFeeSats, domain)],
                     nextId := r.st.nextId + 1)
  }

  /**
   * From any reachable unfrozen state a reservation is granted exactly when an
   * id is left and the amount fits every cap of the full log in exact integers;
   * the granted fee is the largest one asked for that still fits; it is held for
   * exactly what was granted, and a refusal changes nothing.
   */
  lemma {:induction false} ReserveIsExactAndGreedy(
      b: Budget, events: seq<Event>, amount: U64, maxFee: U64, domain: Option<string>, now: U64)
    requires !Exec(b, events).st.frozen
    requires RemembersAll(b, Exec(b, events), domain, now)
    ensures var r := Exec(b, events);
            var (st, res) := Reserve(b, r.st, amount, maxFee, domain, now);
            && GrantedOrRefused(r, amount, domain, st, res)
            && (res.Ok? <==> r.st.nextId < U64_MAX && Fits(b, r, domain, amount, now))
            && (res.Ok? ==>
                  && res.value.maxFeeSats <= maxFee
                  && Fits(b, r, domain, amount + res.value.maxFeeSats, now)
                  && forall total: nat :: amount + res.value.maxFeeSats < total <= amount + maxFee ==>
                       !Fits(b, r, domain, total, now))
  {
    ExecKeeps(b, events);
    var r := Exec(b, events);
    RemembersAllIsRemembers(b, r, domain, now);
    ReserveByAccounts(b, r, amount, maxFee, domain, now);
    forall total: nat
      ensures Fits(b, r, domain, total, now) <==> FitsAccounts(b, r, domain, total, now)
    {
      FitsIsFitsAccount(b, r, domain, total, now);
    }
  }

  /** A frozen tracker refuses everything. */
  lemma FrozenRefuses(b: Budget, r: Run, amount: U64, maxFee: U64, domain: Option<string>, now: U64)
    requires Sound(r) && r.st.frozen
    ensures Reserve(b, r.st, amount, maxFee, domain, now) == (r.st, Err(BudgetExceeded))
  {
  }

  ghost predicate FitsAccounts(b: Budget, r: Run, domain: Option<string>, total: nat, now: U64) {
    FitsAccount(b, r, Global, total, now) && (domain.Some? ==> FitsAccount(b, r, Domain(domain.value), total, now))
  }

  lemma ReserveByAccounts(b: Budget, r: Run, amount: U64, maxFee: U64, domain: Option<string>, now: U64)
    requires Inv(b, r) && !r.st.frozen
    requires Remembers(b, r, Global, now) && (domain.Some? ==> Remembers(b, r, Domain(domain.value), now))
    ensures var (st, res) := Reserve(b, r.st, amount, maxFee, domain, now);
            && GrantedOrRefused(r, amount, domain, st, res)
            && (res.Ok? <==> r.st.nextId < U64_MAX && FitsAccounts(b, r, domain, amount, now))
            && (res.Ok? ==>
                  && res.value.maxFeeSats <= maxFee
                  && FitsAccounts(b, r, domain, amount + res.value.maxFeeSats, now)
                  && forall total: nat :: amount + res.value.maxFeeSats < total <= amount + maxFee ==>
                       !FitsAccounts(b, r, domain, total, now))
  {
    AccountAllowance(b, r, Global, amount, now);
    if domain.Some? {
      AccountAllowance(b, r, Domain(domain.value), amount, now);
    }
    GrantFits(b, r.st, amount, maxFee, domain, now);
  }

  // ----- what is pruned does matter ------------------------------------------------------

  /** 100 settled at `t1`, and nothing settled at `t2`. */
  ghost function HundredThenNothing(t1: U64, t2: U64): seq<Event> {
    [Reserving(100, 0, None, t1)] + [Settling(0, 100, t1, false)]
    + [Reserving(0, 0, None, t2)] + [Settling(1, 0, t2, false)]
  }

  lemma NothingGranted(w: Window, r: Run, t2: U64)
    requires Sound(r) && r.st.pending == map[] && !r.st.frozen && r.st.nextId < U64_MAX
    requires r.st.global.total <= 100
    requires Bucket(w.BucketsIn(r.st.global), w.Slot(t2)) == 0
    ensures var b := HundredIn(w);
            var r' := Step(b, Step(b, r, Reserving(0, 0, None, t2)), Settling(r.st.nextId, 0, t2, false));
            && r'.st == r.st.(nextId := r.st.nextId + 1, global := Record(r.st.global, 0, t2))
            && r'.log == r.log + [Entry(0, 0, None, t2, false)]
  {
    var b := HundredIn(w);
    FeeOfNothing(w, r.st, t2);
    var r1 := Step(b, r, Reserving(0, 0, None, t2));
    assert r1.st.pending - {r.st.nextId} == map[];
  }

  lemma FeeOfNothing(w: Window, s: TrackerState, now: U64)
    requires s.pending == map[] && s.global.total <= 100
    requires Bucket(w.BucketsIn(s.global), w.Slot(now)) == 0
    ensures Outstanding(Global, s.pending) == 0
    ensures FeeGranted(HundredIn(w), s, 0, 0, None, now) == Ok(0)
  {
    var cs := Checks(s.global, HundredIn(w).limits, 0, now);
    assert Outstanding(Global, s.pending) == 0;
    AdmitsFive(cs, 0);
    AllowanceIsGreatest(cs, 0);
    assert ScopeAllowance(HundredIn(w), s, Global, 0, now) == Allowance(cs, 0);
  }

  /** The window that `t1` falls into is pruned by the second settlement. */
  lemma PrunedAway(w: Window, t1: U64, t2: U64)
    requires w.Slot(t1) + w.Kept() < w.Slot(t2)
    ensures var l := Record(Record(EMPTY_LEDGER, 100, t1), 0, t2);
            Bucket(w.BucketsIn(l), w.Slot(t1)) == 0 && l.total == 100
    ensures Bucket(w.BucketsIn(Record(EMPTY_LEDGER, 100, t1)), w.Slot(t2)) == 0
  {
  }

  /** What is left of the run, seen from `t1`. */
  ghost predicate ForgetsHundred(r: Run, w: Window, t1: U64, t2: U64) {
    && !r.st.frozen && r.st.pending == map[] && r.st.nextId == 2
    && r.st.global.total == 100 && Bucket(w.BucketsIn(r.st.global), w.Slot(t1)) == 0
    && r.log == [Entry(100, 100, None, t1, false)] + [Entry(0, 0, None, t2, false)]
  }

  lemma HundredForgotten(w: Window, t1: U64, t2: U64)
    requires w.Slot(t1) + w.Kept() < w.Slot(t2)
    ensures ForgetsHundred(Exec(HundredIn(w), HundredThenNothing(t1, t2)), w, t1, t2)
  {
    var b := HundredIn(w);
    var e1, e2 := [Reserving(100, 0, None, t1)], Settling(0, 100, t1, false);
    var e3, e4 := Reserving(0, 0, None, t2), Settling(1, 0, t2, false);
    ExecOne(b, e1[0]);
    ExecAppend(b, e1, e2);
    ExecAppend(b, e1 + [e2], e3);
    ExecAppend(b, e1 + [e2] + [e3], e4);
    OncePaid(w, t1);
    PrunedAway(w, t1, t2);
    NothingGranted(w, Once(w, t1), t2);
  }

  lemma ForgottenIsGranted(w: Window, r: Run, t1: U64, t2: U64)
    requires Sound(r) && ForgetsHundred(r, w, t1, t2)
    ensures Reserve(HundredIn(w), r.st, 100, 0, None, t1).1.Ok?
    ensures !Fits(HundredIn(w), r, None, 100, t1)
  {
    FeeOfHundred(w, r.st, t1);
    var e1, e2 := Entry(100, 100, None, t1, false), Entry(0, 0, None, t2, false);
    SpentInSlot(w, t1);
    SumByAppend([e1], e2, AmountAt(Global, w, w.Slot(t1)));
    assert SpentAt(Global, w, w.Slot(t1), r.log) >= 100;
    SettledDuringIsSpentAt(Global, w.Slot(t1), r.log);
  }

  /**
   * 48 hours, and 2 days, are exact: for any two readings further apart than
   * that, settling at the later one makes the tracker grant, at the earlier one,
   * what the full log says does not fit.
   */
  lemma {:induction false} PruningShowsBeyond(w: Window, t1: U64, t2: U64)
    requires if w.Hour? then t1 / 3600 + 48 < t2 / 3600 else t1 / 86400 + 2 < t2 / 86400
    ensures var r := Exec(HundredIn(w), HundredThenNothing(t1, t2));
            && !r.st.frozen
            && Reserve(HundredIn(w), r.st, 100, 0, None, t1).1.Ok?
            && !Fits(HundredIn(w), r, None, 100, t1)
  {
    HundredForgotten(w, t1, t2);
    ForgottenIsGranted(w, Exec(HundredIn(w), HundredThenNothing(t1, t2)), t1, t2);
  }

  /** The allowance of one account, read as exact arithmetic. */
  lemma AccountAllowance(b: Budget, r: Run, scope: Scope, amount: U64, now: U64)
    requires Inv(b, r) && !r.st.frozen && Remembers(b, r, scope, now)
    ensures var a := ScopeAllowance(b, r.st, scope, amount, now);
            && (a.Ok? <==> FitsAccount(b, r, scope, amount, now))
            && (a.Err? ==> a.error == BudgetExceeded)
            && (a.Ok? ==> forall total: nat {:trigger FitsAccount(b, r, scope, total, now)} ::
                  amount <= total <= amount + U64_MAX ==>
                    (total <= amount + a.value <==> FitsAccount(b, r, scope, total, now)))
  {
    OutstandingWithinGlobal(scope, r.st.pending);
    if LimitsOf(b, scope).Some? {
      var cs := Checks(LedgerOf(r.st, scope), LimitsOf(b, scope).value, Outstanding(scope, r.st.pending), now);
      AllowanceIsGreatest(cs, amount);
      forall total: nat
        ensures Admits(cs, total) <==> FitsAccount(b, r, scope, total, now)
      {
        AdmitsIsFits(b, r, scope, total, now);
      }
    }
  }

  /** The sums the tracker takes for one account stay within 64 bits, and its total and sums are exact. */
  ghost predicate AccountFits(r: Run, scope: Scope) {
    var l, out := LedgerOf(r.st, scope), Outstanding(scope, r.st.pending);
    && l.total == Spent(scope, r.log)
    && l.total + out <= U64_MAX
    && forall w: Window, slot: nat :: Bucket(w.BucketsIn(l), slot) + out <= U64_MAX
  }

  ghost predicate AccountsExact(r: Run) {
    && Outstanding(Global, r.st.pending) <= U64_MAX
    && (!r.st.frozen ==> forall scope :: AccountFits(r, scope))
    && (forall id :: id in r.st.pending ==> id < r.st.nextId)
    && TotalSpent(r.st) == Cap(Spent(Global, r.log) + Outstanding(Global, r.st.pending))
  }

  lemma InvMakesAccountFit(b: Budget, r: Run, scope: Scope)
    requires Inv(b, r) && !r.st.frozen
    ensures AccountFits(r, scope)
  {
    assert AccountOk(b, r, scope);
    UnfrozenIsExact(b, r, scope);
    forall w: Window, slot: nat
      ensures Bucket(w.BucketsIn(LedgerOf(r.st, scope)), slot) <= Spent(scope, r.log)
    {
      assert WindowOk(b, r, scope, w);
      RememberedWithin(scope, w, slot, r.log);
    }
  }

  lemma InvMakesAccountsExact(b: Budget, r: Run)
    requires Inv(b, r)
    ensures AccountsExact(r)
  {
    assert AccountOk(b, r, Global);
    if !r.st.frozen {
      forall scope ensures AccountFits(r, scope) {
        InvMakesAccountFit(b, r, scope);
      }
    }
  }

  /**
   * Nothing the tracker adds overflows, whatever the clock does: reservations
   * fit 64 bits in every reachable state; until the first violation every
   * account's total is exact, and its total and each of its buckets fit 64 bits
   * together with its reservations, so no saturating sum saturates, here or when
   * a reservation is settled; a new id is above every live one; and the total a
   * caller is shown is the exact one, saturated.
   */
  lemma {:induction false} AccountingNeverOverflows(b: Budget, events: seq<Event>)
    ensures AccountsExact(Exec(b, events))
  {
    ExecKeeps(b, events);
    InvMakesAccountsExact(b, Exec(b, events));
  }

  /** A settlement is accepted exactly if it kept to its authorization, and is charged in any case. */
  lemma SettlementsAreCharged(st: TrackerState, id: U64, amount: U64, now: U64, violation: bool)
    requires id in st.pending
    ensures var (st', r) := Settle(st, id, amount, now, violation);
            var kept := !violation && amount <= st.pending[id].amount;
            && r == (if kept then Ok(()) else Err(BudgetExceeded))
            && (st'.frozen <==> st.frozen || !kept)
            && st'.pending == st.pending - {id} && st'.nextId == st.nextId
            && st'.global == Record(st.global, amount, now)
            && (forall d :: d in st'.domains <==> d in st.domains || st.pending[id].domain == Some(d))
            && (forall d :: d in st'.domains ==>
                  LedgerOf(st', Domain(d)) ==
                  if st.pending[id].domain == Some(d) then Record(LedgerOf(st, Domain(d)), amount, now)
                  else LedgerOf(st, Domain(d)))
  {
  }

  // ----- a reservation and its settlement, whatever comes between --------------------

  predicate Uses(e: Event, id: U64) {
    !e.Reserving? && e.id == id
  }

  lemma StepKeepsHeld(b: Budget, r: Run, e: Event, id: U64)
    requires Sound(r) && id in r.held && !Uses(e, id)
    ensures var r' := Step(b, r, e); id in r'.held && r'.st.pending[id] == r.st.pending[id]
  {
  }

  /** A reservation stays as it was made until its holder uses it. */
  lemma {:induction false} HeldUntilUsed(b: Budget, before: seq<Event>, between: seq<Event>, id: U64)
    requires id in Exec(b, before).held
    requires forall i :: 0 <= i < |between| ==> !Uses(between[i], id)
    ensures var r' := Exec(b, before + between);
            id in r'.held && r'.st.pending[id] == Exec(b, before).st.pending[id]
  {
    if between == [] {
      assert before + between == before;
    } else {
      var n := |between| - 1;
      HeldUntilUsed(b, before, between[..n], id);
      ExecExtend(b, before, between);
      StepKeepsHeld(b, Exec(b, before + between[..n]), between[n], id);
    }
  }

  /**
   * `check_and_record` with any calls of others between its two lock
   * acquisitions: once its reservation is granted, its settlement goes through,
   * charges exactly the amount, and freezes nothing.
   */
  lemma {:induction false} CheckAndRecordCommits(
      b: Budget, before: seq<Event>, between: seq<Event>, amount: U64, domain: Option<string>, now: U64, settleNow: U64)
    requires Reserve(b, Exec(b, before).st, amount, 0, domain, now).1.Ok?
    requires forall i :: 0 <= i < |between| ==> !Uses(between[i], Exec(b, before).st.nextId)
    ensures var id := Exec(b, before).st.nextId;
            var st := Exec(b, before + [Reserving(amount, 0, domain, now)] + between).st;
            && id in st.pending
            && Settle(st, id, amount, settleNow, false) == (Charge(Release(st, id), domain, amount, settleNow), Ok(()))
  {
    var reserving := Reserving(amount, 0, domain, now);
    ExecAppend(b, before, reserving);
    GrantFits(b, Exec(b, before).st, amount, 0, domain, now);
    HeldUntilUsed(b, before + [reserving], between, Exec(b, before).st.nextId);
  }

  lemma StepKeepsIds(b: Budget, r: Run, e: Event)
    requires Sound(r)
    ensures r.st.nextId <= Step(b, r, e).st.nextId
  {
  }

  /** Ids are never used twice: the next id only grows, and a reservation always takes the next one. */
  lemma {:induction false} IdsAreNeverReused(b: Budget, before: seq<Event>, after: seq<Event>)
    ensures Exec(b, before).st.nextId <= Exec(b, before + after).st.nextId
  {
    if after == [] {
      assert before + after == before;
    } else {
      var n := |after| - 1;
      IdsAreNeverReused(b, before, after[..n]);
      ExecExtend(b, before, after);
      StepKeepsIds(b, Exec(b, before + after[..n]), after[n]);
    }
  }

  /**
   * Domain limits only tighten. Domain totals add up to no more than the global
   * spending; until the first violation every budgeted domain is within its own
   * cap, and the global cap holds whatever the mix of domains.
   */
  lemma {:induction false} DomainsOnlyTighten(b: Budget, events: seq<Event>)
    ensures var r := Exec(b, events);
            && SumMap(r.st.domains, LedgerTotal()) <= Spent(Global, r.log)
            && (!r.st.frozen ==>
                  && SumMap(r.st.domains, LedgerTotal()) <= r.st.global.total
                  && r.st.global.total + Outstanding(Global, r.st.pending) <= TotalCap(b.limits)
                  && forall d :: d in b.domainBudgets ==>
                       LedgerOf(r.st, Domain(d)).total + Outstanding(Domain(d), r.st.pending)
                         <= TotalCap(b.domainBudgets[d]))
  {
    ExecKeeps(b, events);
    var r := Exec(b, events);
    if !r.st.frozen {
      UnfrozenIsExact(b, r, Global);
      assert AccountOk(b, r, Global);
      forall d | d in b.domainBudgets
        ensures LedgerOf(r.st, Domain(d)).total + Outstanding(Domain(d), r.st.pending) <= TotalCap(b.domainBudgets[d])
      {
        UnfrozenIsExact(b, r, Domain(d));
        assert AccountOk(b, r, Domain(d));
      }
    }
  }
}
