// Every run of the budget tracker: any sequence of reservations, settlements,
// releases and dropped reservation tokens, by any number of callers.
//
// A run keeps, beside the tracker, what the tracker itself forgets: the tokens
// callers still hold, the full log of settlements, the latest reading of the
// clock, and what was reserved or settled at which reading. The clock may show
// anything at any time. The theorems about runs are in BudgetTheorems.dfy.

module BudgetRuns {
  import opened Numbers
  import opened Sums
  import opened BudgetModel

  datatype Entry = Entry(reserved: U64, amount: U64, domain: Option<string>, now: U64, violation: bool)

  /** The two kinds of spending window, each with its cap and its buckets. */
  datatype Window = Hour | Day
  {
    function Kept(): nat {
      if Hour? then HOURS_KEPT else DAYS_KEPT
    }

    function Slot(now: nat): nat {
      if Hour? then now / HOUR else now / DAY
    }

    function CapIn(l: Limits): Option<U64> {
      if Hour? then l.hourlyMax else l.dailyMax
    }

    function BucketsIn(l: LedgerState): map<nat, U64> {
      if Hour? then l.hourly else l.daily
    }
  }

  /** An amount that was reserved or settled at one reading of the clock, when an earlier one had shown `latest`. */
  datatype Dated = Dated(domain: Option<string>, amount: nat, now: U64, latest: nat)

  datatype Run = Run(st: TrackerState, held: set<U64>, log: seq<Entry>, latest: nat, dated: seq<Dated>)

  const NEW_RUN := Run(NEW_TRACKER, {}, [], 0, [])

  datatype Event =
    | Reserving(amount: U64, maxFee: U64, domain: Option<string>, now: U64)
    | Settling(id: U64, amount: U64, now: U64, violation: bool)
    | Releasing(id: U64)
    | Dropping(id: U64)

  // ----- what the log says ------------------------------------------------

  ghost function AmountIn(scope: Scope): Entry -> nat {
    (e: Entry) => if In(scope, e.domain) then e.amount else 0
  }

  ghost function ExcessIn(scope: Scope): Entry -> nat {
    (e: Entry) => if In(scope, e.domain) && e.amount > e.reserved then e.amount - e.reserved else 0
  }

  ghost function AmountAt(scope: Scope, w: Window, slot: nat): Entry -> nat {
    (e: Entry) => if In(scope, e.domain) && w.Slot(e.now) == slot then e.amount else 0
  }

  /** Everything settled on an account, exactly. */
  ghost function Spent(scope: Scope, log: seq<Entry>): nat {
    SumBy(log, AmountIn(scope))
  }

  /** How far settlements of an account went beyond their own reservations, in total. */
  ghost function Excess(scope: Scope, log: seq<Entry>): nat {
    SumBy(log, ExcessIn(scope))
  }

  /** What an account settled in one hour or one day. */
  ghost function SpentAt(scope: Scope, w: Window, slot: nat, log: seq<Entry>): nat {
    SumBy(log, AmountAt(scope, w, slot))
  }

  /** What counts as late: its window was over, by the latest reading of the clock until then. */
  ghost function LateIn(scope: Scope, w: Window): Dated -> nat {
    (d: Dated) => if In(scope, d.domain) && w.Slot(d.now) < w.Slot(d.latest) then d.amount else 0
  }

  /** Everything an account reserved or settled late. */
  ghost function Late(scope: Scope, w: Window, dated: seq<Dated>): nat {
    SumBy(dated, LateIn(scope, w))
  }

  /**
   * What the buckets remember of one hour or day: what was settled in it since
   * the last settlement so much later that it pruned the bucket.
   */
  ghost function Remembered(scope: Scope, w: Window, slot: nat, log: seq<Entry>): nat {
    if log == [] then 0 else
    var e, before := log[|log| - 1], log[..|log| - 1];
    if In(scope, e.domain) && slot + w.Kept() < w.Slot(e.now) then 0
    else Remembered(scope, w, slot, before) + AmountAt(scope, w, slot)(e)
  }

  /** The reading at the last settlement of an account. */
  ghost function LastSettled(scope: Scope, log: seq<Entry>): nat {
    if log == [] then 0
    else if In(scope, log[|log| - 1].domain) then log[|log| - 1].now
    else LastSettled(scope, log[..|log| - 1])
  }

  /** The account settled something in this hour or day. */
  ghost predicate SettledAt(scope: Scope, w: Window, slot: nat, log: seq<Entry>) {
    exists i :: 0 <= i < |log| && In(scope, log[i].domain) && w.Slot(log[i].now) == slot
  }

  /** No settlement of the account was so much later that it pruned the window that `now` falls into. */
  ghost predicate NotPruned(scope: Scope, w: Window, log: seq<Entry>, now: nat) {
    forall i :: 0 <= i < |log| && In(scope, log[i].domain) ==>
      if w.Hour? then log[i].now / 3600 <= now / 3600 + 48 else log[i].now / 86400 <= now / 86400 + 2
  }

  predicate Violates(e: Entry) {
    e.violation || e.amount > e.reserved
  }

  // ----- runs -------------------------------------------------------------

  /** What the source's `expect("live reservation")` and its unchecked sums rely on. */
  ghost predicate Sound(r: Run) {
    && r.held <= r.st.pending.Keys
    && (forall id :: id in r.st.pending ==> id < r.st.nextId)
    && Outstanding(Global, r.st.pending) <= U64_MAX
  }

  function Tick(r: Run, now: U64): Run {
    r.(latest := Max(r.latest, now))
  }

  /**
   * One call on the tracker. A token is consumed by the call that uses it, so
   * a caller can only settle, release or drop a token it still holds; anything
   * else cannot happen and changes nothing.
   */
  ghost function Step(b: Budget, r: Run, e: Event): (r': Run)
    requires Sound(r)
    ensures Sound(r')
  {
    match e
    case Reserving(amount, maxFee, domain, now) =>
      var (st, res) := Reserve(b, r.st, amount, maxFee, domain, now);
      if res.Err? then Tick(r, now) else
      GrantFits(b, r.st, amount, maxFee, domain, now);
      SumMapInsert(r.st.pending, PendingIn(Global), r.st.nextId, st.pending[r.st.nextId]);
      Tick(r, now).(
        st := st,
        held := r.held + {res.value.id},
        dated := r.dated + [Dated(domain, st.pending[r.st.nextId].amount, now, r.latest)])
    case Settling(id, amount, now, violation) =>
      if id !in r.held then r else
      SumMapRemove(r.st.pending, PendingIn(Global), id);
      var p := r.st.pending[id];
      Tick(r, now).(
        st := Settle(r.st, id, amount, now, violation).0,
        held := r.held - {id},
        log := r.log + [Entry(p.amount, amount, p.domain, now, violation)],
        dated := r.dated + [Dated(p.domain, amount, now, r.latest)])
    case Releasing(id) =>
      if id !in r.held then r else
      SumMapRemove(r.st.pending, PendingIn(Global), id);
      r.(st := Release(r.st, id), held := r.held - {id})
    case Dropping(id) =>
      r.(held := r.held - {id})
  }

  ghost function Exec(b: Budget, events: seq<Event>): (r: Run)
    ensures Sound(r)
  {
    if events == [] then NEW_RUN else
    Step(b, Exec(b, events[..|events| - 1]), events[|events| - 1])
  }

  // ----- the invariant ----------------------------------------------------

  function TotalCap(l: Limits): U64 {
    if l.totalMax.Some? then l.totalMax.value else U64_MAX
  }

  /** The ledger's total is exact, saturated, and settled plus reserved stays under the cap up to the excess. */
  ghost predicate TotalOk(b: Budget, r: Run, scope: Scope) {
    && LedgerOf(r.st, scope).total == Cap(Spent(scope, r.log))
    && (LimitsOf(b, scope).Some? ==>
          Spent(scope, r.log) + Outstanding(scope, r.st.pending)
            <= TotalCap(LimitsOf(b, scope).value) + Excess(scope, r.log))
  }

  /** Every bucket, present or not, holds what it remembers, and every one present was settled in and not yet pruned. */
  ghost predicate BucketsTrack(m: map<nat, U64>, scope: Scope, w: Window, log: seq<Entry>) {
    && (forall slot: nat :: Bucket(m, slot) == Cap(Remembered(scope, w, slot, log)))
    && (forall slot: nat :: slot in m ==>
          SettledAt(scope, w, slot, log) && w.Slot(LastSettled(scope, log)) <= slot + w.Kept())
  }

  /** What a window may end at: its cap, and what settlements took in excess or what came late. */
  ghost function Bound(cap: U64, r: Run, scope: Scope, w: Window): nat {
    cap + Excess(scope, r.log) + Late(scope, w, r.dated)
  }

  /** No window is over its bound, and from now on none can be even if every reservation lands in it. */
  ghost predicate CapKept(cap: Option<U64>, r: Run, scope: Scope, w: Window) {
    cap.Some? ==>
      forall slot: nat ::
        && SpentAt(scope, w, slot, r.log) <= Bound(cap.value, r, scope, w)
        && (w.Slot(r.latest) <= slot ==>
              SpentAt(scope, w, slot, r.log) + Outstanding(scope, r.st.pending) <= Bound(cap.value, r, scope, w))
  }

  ghost predicate WindowOk(b: Budget, r: Run, scope: Scope, w: Window) {
    && BucketsTrack(w.BucketsIn(LedgerOf(r.st, scope)), scope, w, r.log)
    && (LimitsOf(b, scope).Some? ==> CapKept(w.CapIn(LimitsOf(b, scope).value), r, scope, w))
  }

  /** All there is to say about one account. */
  ghost predicate AccountOk(b: Budget, r: Run, scope: Scope) {
    TotalOk(b, r, scope) && forall w :: WindowOk(b, r, scope, w)
  }

  ghost predicate LogIsPast(log: seq<Entry>, latest: nat) {
    forall i :: 0 <= i < |log| ==> log[i].now <= latest
  }

  ghost predicate FrozenOk(r: Run) {
    r.st.frozen <==> exists i :: 0 <= i < |r.log| && Violates(r.log[i])
  }

  ghost function LedgerTotal(): LedgerState -> nat {
    (l: LedgerState) => l.total
  }

  /** Domain totals, added up, are within what was settled overall. */
  ghost predicate DomainsOk(r: Run) {
    SumMap(r.st.domains, LedgerTotal()) <= Spent(Global, r.log)
  }

  ghost predicate Inv(b: Budget, r: Run) {
    && Sound(r)
    && FrozenOk(r)
    && DomainsOk(r)
    && LogIsPast(r.log, r.latest)
    && forall scope :: AccountOk(b, r, scope)
  }

  // ----- facts about the log ----------------------------------------------

  lemma LogAppend(scope: Scope, log: seq<Entry>, e: Entry)
    ensures Spent(scope, log + [e]) == Spent(scope, log) + AmountIn(scope)(e)
    ensures Excess(scope, log + [e]) == Excess(scope, log) + ExcessIn(scope)(e)
  {
    SumByAppend(log, e, AmountIn(scope));
    SumByAppend(log, e, ExcessIn(scope));
  }

  lemma LogAppendAt(scope: Scope, w: Window, log: seq<Entry>, e: Entry)
    ensures forall slot: nat :: SpentAt(scope, w, slot, log + [e]) ==
              SpentAt(scope, w, slot, log) + if In(scope, e.domain) && w.Slot(e.now) == slot then e.amount else 0
  {
    forall slot: nat
      ensures SpentAt(scope, w, slot, log + [e]) ==
              SpentAt(scope, w, slot, log) + if In(scope, e.domain) && w.Slot(e.now) == slot then e.amount else 0
    {
      SumByAppend(log, e, AmountAt(scope, w, slot));
    }
  }

  lemma SpentWithinGlobal(scope: Scope, log: seq<Entry>)
    ensures Spent(scope, log) <= Spent(Global, log)
  {
    SumByMonotone(log, AmountIn(scope), AmountIn(Global));
  }

  lemma SpentAtWithinSpent(scope: Scope, w: Window, slot: nat, log: seq<Entry>)
    ensures SpentAt(scope, w, slot, log) <= Spent(scope, log)
  {
    SumByMonotone(log, AmountAt(scope, w, slot), AmountIn(scope));
  }

  lemma {:induction false} NoViolationNoExcess(scope: Scope, log: seq<Entry>)
    requires forall i :: 0 <= i < |log| ==> !Violates(log[i])
    ensures Excess(scope, log) == 0
  {
    if log == [] {
    } else {
      var n := |log| - 1;
      assert forall i :: 0 <= i < n ==> log[..n][i] == log[i];
      NoViolationNoExcess(scope, log[..n]);
      assert !Violates(log[n]);
    }
  }

  // ----- reservations in exact arithmetic -----------------------------------

  /** `total` more sats on an account break none of its caps, judged by the full log in exact integers. */
  ghost predicate FitsAccount(b: Budget, r: Run, scope: Scope, total: nat, now: U64) {
    LimitsOf(b, scope).Some? ==>
      var l := LimitsOf(b, scope).value;
      var out := Outstanding(scope, r.st.pending);
      && (l.perRequestMax.Some? ==> total <= l.perRequestMax.value)
      && Spent(scope, r.log) + out + total <= TotalCap(l)
      && (l.hourlyMax.Some? ==> SpentAt(scope, Hour, Hour.Slot(now), r.log) + out + total <= l.hourlyMax.value)
      && (l.dailyMax.Some? ==> SpentAt(scope, Day, Day.Slot(now), r.log) + out + total <= l.dailyMax.value)
  }

  /** Before the first violation, nothing the tracker computes saturates. */
  lemma UnfrozenIsExact(b: Budget, r: Run, scope: Scope)
    requires Inv(b, r) && !r.st.frozen
    ensures Excess(scope, r.log) == 0
    ensures Spent(scope, r.log) + Outstanding(scope, r.st.pending) <= U64_MAX
    ensures LedgerOf(r.st, scope).total == Spent(scope, r.log)
    ensures forall w: Window, slot: nat :: SpentAt(scope, w, slot, r.log) <= Spent(scope, r.log)
  {
    NoViolationNoExcess(scope, r.log);
    NoViolationNoExcess(Global, r.log);
    SpentWithinGlobal(scope, r.log);
    OutstandingWithinGlobal(scope, r.st.pending);
    assert AccountOk(b, r, Global) && AccountOk(b, r, scope);
    forall w: Window, slot: nat
      ensures SpentAt(scope, w, slot, r.log) <= Spent(scope, r.log)
    {
      SpentAtWithinSpent(scope, w, slot, r.log);
    }
  }

  lemma {:induction false} RememberedWithin(scope: Scope, w: Window, slot: nat, log: seq<Entry>)
    ensures Remembered(scope, w, slot, log) <= SpentAt(scope, w, slot, log)
  {
    if log == [] {
    } else {
      RememberedWithin(scope, w, slot, log[..|log| - 1]);
    }
  }

  lemma {:induction false} NothingForgotten(scope: Scope, w: Window, log: seq<Entry>, now: nat)
    requires NotPruned(scope, w, log, now)
    ensures Remembered(scope, w, w.Slot(now), log) == SpentAt(scope, w, w.Slot(now), log)
  {
    if log == [] {
    } else {
      var n := |log| - 1;
      assert forall i :: 0 <= i < n ==> log[..n][i] == log[i];
      NothingForgotten(scope, w, log[..n], now);
      assert In(scope, log[n].domain) ==> w.Slot(log[n].now) <= w.Slot(now) + w.Kept();
    }
  }

  lemma BucketIsExact(b: Budget, r: Run, scope: Scope, w: Window, now: U64)
    requires Inv(b, r) && NotPruned(scope, w, r.log, now)
    ensures Bucket(w.BucketsIn(LedgerOf(r.st, scope)), w.Slot(now)) == Cap(SpentAt(scope, w, w.Slot(now), r.log))
  {
    assert AccountOk(b, r, scope) && WindowOk(b, r, scope, w);
    NothingForgotten(scope, w, r.log, now);
  }

  lemma SlotsGrow(w: Window, earlier: nat, later: nat)
    requires earlier <= later
    ensures w.Slot(earlier) <= w.Slot(later)
  {
  }

  /** At the latest reading and after it, nothing has been pruned that counts. */
  lemma LatestNotPruned(scope: Scope, w: Window, log: seq<Entry>, latest: nat, now: nat)
    requires LogIsPast(log, latest) && w.Slot(latest) <= w.Slot(now)
    ensures NotPruned(scope, w, log, now)
    ensures forall slot: nat :: w.Slot(latest) < slot ==> SpentAt(scope, w, slot, log) == 0
  {
    forall i | 0 <= i < |log| ensures w.Slot(log[i].now) <= w.Slot(latest) {
      SlotsGrow(w, log[i].now, latest);
    }
    forall slot: nat | w.Slot(latest) < slot ensures SpentAt(scope, w, slot, log) == 0 {
      NothingAt(scope, w, slot, log);
    }
  }

  lemma {:induction false} NothingAt(scope: Scope, w: Window, slot: nat, log: seq<Entry>)
    requires forall i :: 0 <= i < |log| ==> w.Slot(log[i].now) != slot
    ensures SpentAt(scope, w, slot, log) == 0
  {
    if log == [] {
    } else {
      var n := |log| - 1;
      assert forall i :: 0 <= i < n ==> log[..n][i] == log[i];
      NothingAt(scope, w, slot, log[..n]);
      assert w.Slot(log[n].now) != slot;
    }
  }

  lemma HourOfDay(now: nat)
    ensures 24 * Day.Slot(now) <= Hour.Slot(now) < 24 * Day.Slot(now) + 24
  {
    var d, h := now / DAY, now / HOUR;
    assert DAY * d <= now < DAY * d + DAY && HOUR * h <= now < HOUR * h + HOUR;
  }

  /** What is retained by the hour is retained by the day. */
  lemma HoursCoverDays(scope: Scope, log: seq<Entry>, now: nat)
    requires NotPruned(scope, Hour, log, now)
    ensures NotPruned(scope, Day, log, now)
  {
    forall i | 0 <= i < |log| && In(scope, log[i].domain)
      ensures Day.Slot(log[i].now) <= Day.Slot(now) + Day.Kept()
    {
      HourOfDay(log[i].now);
      HourOfDay(now);
    }
  }

  /** For every window the account has a cap on, what `now` falls into has not been pruned. */
  ghost predicate Remembers(b: Budget, r: Run, scope: Scope, now: nat) {
    LimitsOf(b, scope).Some? ==>
      forall w: Window :: w.CapIn(LimitsOf(b, scope).value).Some? ==> NotPruned(scope, w, r.log, now)
  }

  /** The table of caps the tracker walks says exactly what the full log says. */
  lemma AdmitsIsFits(b: Budget, r: Run, scope: Scope, total: nat, now: U64)
    requires Inv(b, r) && !r.st.frozen
    requires LimitsOf(b, scope).Some? && Remembers(b, r, scope, now)
    requires Outstanding(scope, r.st.pending) <= U64_MAX
    ensures Admits(Checks(LedgerOf(r.st, scope), LimitsOf(b, scope).value, Outstanding(scope, r.st.pending), now),
                   total)
        <==> FitsAccount(b, r, scope, total, now)
  {
    var l := LimitsOf(b, scope).value;
    var cs := Checks(LedgerOf(r.st, scope), l, Outstanding(scope, r.st.pending), now);
    UnfrozenIsExact(b, r, scope);
    if l.hourlyMax.Some? {
      assert Hour.CapIn(l).Some?;
      BucketIsExact(b, r, scope, Hour, now);
    }
    if l.dailyMax.Some? {
      assert Day.CapIn(l).Some?;
      BucketIsExact(b, r, scope, Day, now);
    }
    AdmitsFive(cs, total);
  }

  lemma AdmitsFive(cs: seq<Check>, total: nat)
    requires |cs| == 5
    ensures Admits(cs, total) <==>
            && Allows(cs[0], total) && Allows(cs[1], total) && Allows(cs[2], total)
            && Allows(cs[3], total) && Allows(cs[4], total)
  {
  }

  /** A granted reservation respects the total cap of each account even if the clock has misbehaved. */
  lemma AdmitsRespectsTotal(b: Budget, r: Run, scope: Scope, total: nat, now: U64)
    requires Inv(b, r) && !r.st.frozen
    requires LimitsOf(b, scope).Some?
    requires Outstanding(scope, r.st.pending) <= U64_MAX
    requires Admits(Checks(LedgerOf(r.st, scope), LimitsOf(b, scope).value, Outstanding(scope, r.st.pending), now),
                    total)
    ensures Spent(scope, r.log) + Outstanding(scope, r.st.pending) + total <= TotalCap(LimitsOf(b, scope).value)
  {
    var cs := Checks(LedgerOf(r.st, scope), LimitsOf(b, scope).value, Outstanding(scope, r.st.pending), now);
    UnfrozenIsExact(b, r, scope);
    assert Allows(cs[1], total) && Allows(cs[4], total);
  }

  /** And the cap of a window that is not over. */
  lemma AdmitsRespectsWindow(b: Budget, r: Run, scope: Scope, w: Window, total: nat, now: U64)
    requires Inv(b, r) && !r.st.frozen && w.Slot(r.latest) <= w.Slot(now)
    requires LimitsOf(b, scope).Some? && w.CapIn(LimitsOf(b, scope).value).Some?
    requires Outstanding(scope, r.st.pending) <= U64_MAX
    requires Admits(Checks(LedgerOf(r.st, scope), LimitsOf(b, scope).value, Outstanding(scope, r.st.pending), now),
                    total)
    ensures SpentAt(scope, w, w.Slot(now), r.log) + Outstanding(scope, r.st.pending) + total
         <= w.CapIn(LimitsOf(b, scope).value).value
  {
    var cs := Checks(LedgerOf(r.st, scope), LimitsOf(b, scope).value, Outstanding(scope, r.st.pending), now);
    UnfrozenIsExact(b, r, scope);
    LatestNotPruned(scope, w, r.log, r.latest, now);
    BucketIsExact(b, r, scope, w, now);
    assert Allows(cs[if w.Hour? then 2 else 3], total);
  }
}
