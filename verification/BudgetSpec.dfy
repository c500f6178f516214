// What a budget promises, written over its own fields, in exact integers and
// over the full log of settlements. The tracker computes none of this: it has
// saturating sums, pruned buckets and a table of caps. BudgetTheorems.dfy proves
// that it comes to the same.

module BudgetSpec {
  import opened Numbers
  import opened Sums
  import opened BudgetModel
  import opened BudgetRuns

  /** `l` are limits that the account `scope` has: the budget's own, or those of one of its domains. */
  predicate Restricts(b: Budget, scope: Scope, l: Limits) {
    match scope
    case Global => l == b.limits
    case Domain(d) => d in b.domainBudgets && l == b.domainBudgets[d]
  }

  /** A payment to `domain` counts for the whole, and for its domain. */
  predicate CountsFor(scope: Scope, domain: Option<string>) {
    match scope
    case Global => true
    case Domain(d) => domain == Some(d)
  }

  ghost function SettledBy(scope: Scope, log: seq<Entry>): nat {
    SumBy(log, (e: Entry) => if CountsFor(scope, e.domain) then e.amount else 0)
  }

  /** What was settled in one of the periods of so many seconds that time is cut into. */
  ghost function SettledDuring(scope: Scope, seconds: nat, period: nat, log: seq<Entry>): nat
    requires seconds > 0
  {
    SumBy(log, (e: Entry) => if CountsFor(scope, e.domain) && e.now / seconds == period then e.amount else 0)
  }

  ghost function ReservedBy(scope: Scope, pending: map<U64, Pending>): nat {
    SumMap(pending, (p: Pending) => if CountsFor(scope, p.domain) then p.amount else 0)
  }

  /** `total` sats more, at `now`, break none of these limits, nor 64 bits. */
  ghost predicate FitsLimits(l: Limits, r: Run, scope: Scope, total: nat, now: U64) {
    var reserved := ReservedBy(scope, r.st.pending);
    && (l.perRequestMax.Some? ==> total <= l.perRequestMax.value)
    && (l.totalMax.Some? ==> SettledBy(scope, r.log) + reserved + total <= l.totalMax.value)
    && (l.hourlyMax.Some? ==>
          SettledDuring(scope, 3600, now / 3600, r.log) + reserved + total <= l.hourlyMax.value)
    && (l.dailyMax.Some? ==>
          SettledDuring(scope, 86400, now / 86400, r.log) + reserved + total <= l.dailyMax.value)
    && SettledBy(scope, r.log) + reserved + total <= 0xFFFF_FFFF_FFFF_FFFF
  }

  /** `total` sats for a payment to `domain` fit the budget's limits and, if the domain has any, its own. */
  ghost predicate Fits(b: Budget, r: Run, domain: Option<string>, total: nat, now: U64) {
    && FitsLimits(b.limits, r, Global, total, now)
    && (domain.Some? && domain.value in b.domainBudgets ==>
          FitsLimits(b.domainBudgets[domain.value], r, Domain(domain.value), total, now))
  }

  /** No hour or day of the account is over these limits by more than `over`, in the log or in the tracker's buckets. */
  ghost predicate WindowWithin(l: Limits, r: Run, scope: Scope, w: Window, over: nat) {
    match w
    case Hour =>
      l.hourlyMax.Some? ==>
        forall hour: nat ::
          && SettledDuring(scope, 3600, hour, r.log) <= l.hourlyMax.value + over
          && Bucket(LedgerOf(r.st, scope).hourly, hour) <= l.hourlyMax.value + over
    case Day =>
      l.dailyMax.Some? ==>
        forall day: nat ::
          && SettledDuring(scope, 86400, day, r.log) <= l.dailyMax.value + over
          && Bucket(LedgerOf(r.st, scope).daily, day) <= l.dailyMax.value + over
  }

  /** For every one of these limits, the hour or day that `now` falls into has not been pruned. */
  ghost predicate NotPrunedFor(l: Limits, r: Run, scope: Scope, now: nat) {
    && (l.hourlyMax.Some? ==> NotPruned(scope, Hour, r.log, now))
    && (l.dailyMax.Some? ==> NotPruned(scope, Day, r.log, now))
  }

  /** The same for every limit on a payment to `domain`. */
  ghost predicate RemembersAll(b: Budget, r: Run, domain: Option<string>, now: nat) {
    && NotPrunedFor(b.limits, r, Global, now)
    && (domain.Some? && domain.value in b.domainBudgets ==>
          NotPrunedFor(b.domainBudgets[domain.value], r, Domain(domain.value), now))
  }

  // ----- the same in the terms of the proofs ----------------------------------------------

  lemma RestrictsIsLimitsOf(b: Budget, scope: Scope, l: Limits)
    ensures Restricts(b, scope, l) <==> LimitsOf(b, scope) == Some(l)
  {
  }

  lemma SettledIsSpent(scope: Scope, log: seq<Entry>)
    ensures SettledBy(scope, log) == Spent(scope, log)
  {
    SumByEqual(log, (e: Entry) => if CountsFor(scope, e.domain) then e.amount else 0, AmountIn(scope));
  }

  lemma SettledDuringIsSpentAt(scope: Scope, slot: nat, log: seq<Entry>)
    ensures SettledDuring(scope, 3600, slot, log) == SpentAt(scope, Hour, slot, log)
    ensures SettledDuring(scope, 86400, slot, log) == SpentAt(scope, Day, slot, log)
  {
    SumByEqual(log, (e: Entry) => if CountsFor(scope, e.domain) && e.now / 3600 == slot then e.amount else 0,
               AmountAt(scope, Hour, slot));
    SumByEqual(log, (e: Entry) => if CountsFor(scope, e.domain) && e.now / 86400 == slot then e.amount else 0,
               AmountAt(scope, Day, slot));
  }

  lemma ReservedIsOutstanding(scope: Scope, pending: map<U64, Pending>)
    ensures ReservedBy(scope, pending) == Outstanding(scope, pending)
  {
    SumMapEqual(pending, (p: Pending) => if CountsFor(scope, p.domain) then p.amount else 0, PendingIn(scope));
  }

  lemma FitsLimitsIsFitsAccount(b: Budget, l: Limits, r: Run, scope: Scope, total: nat, now: U64)
    requires Restricts(b, scope, l)
    requires l.totalMax.Some? ==> l.totalMax.value <= U64_MAX
    ensures FitsLimits(l, r, scope, total, now) <==> FitsAccount(b, r, scope, total, now)
  {
    RestrictsIsLimitsOf(b, scope, l);
    SettledIsSpent(scope, r.log);
    ReservedIsOutstanding(scope, r.st.pending);
    SettledDuringIsSpentAt(scope, now / 3600, r.log);
    SettledDuringIsSpentAt(scope, now / 86400, r.log);
  }

  lemma FitsIsFitsAccount(b: Budget, r: Run, domain: Option<string>, total: nat, now: U64)
    ensures Fits(b, r, domain, total, now) <==>
            && FitsAccount(b, r, Global, total, now)
            && (domain.Some? ==> FitsAccount(b, r, Domain(domain.value), total, now))
  {
    FitsLimitsIsFitsAccount(b, b.limits, r, Global, total, now);
    if domain.Some? && domain.value in b.domainBudgets {
      FitsLimitsIsFitsAccount(b, b.domainBudgets[domain.value], r, Domain(domain.value), total, now);
    } else if domain.Some? {
      assert LimitsOf(b, Domain(domain.value)) == None;
    }
  }

  lemma RemembersAllIsRemembers(b: Budget, r: Run, domain: Option<string>, now: nat)
    requires RemembersAll(b, r, domain, now)
    ensures Remembers(b, r, Global, now) && (domain.Some? ==> Remembers(b, r, Domain(domain.value), now))
  {
  }
}
