// The budget tracker as a value: what one reservation, release or settlement
// does to the ledgers. The class in BudgetTracker.dfy is proved against these
// functions, and BudgetRuns.dfy proves what every sequence of them keeps.

module BudgetModel {
  import opened Numbers
  import opened Sums

  const HOUR: nat := 3600
  const DAY: nat := 86400
  const HOURS_KEPT: nat := 48
  const DAYS_KEPT: nat := 2

  datatype Limits = Limits(
    perRequestMax: Option<U64>,
    hourlyMax: Option<U64>,
    dailyMax: Option<U64>,
    totalMax: Option<U64>)

  datatype Budget = Budget(limits: Limits, domainBudgets: map<string, Limits>)

  datatype LedgerState = LedgerState(total: U64, hourly: map<nat, U64>, daily: map<nat, U64>)

  const EMPTY_LEDGER := LedgerState(0, map[], map[])

  datatype Pending = Pending(amount: U64, domain: Option<string>)

  datatype TrackerState = TrackerState(
    global: LedgerState,
    domains: map<string, LedgerState>,
    pending: map<U64, Pending>,
    nextId: U64,
    frozen: bool)

  const NEW_TRACKER := TrackerState(EMPTY_LEDGER, map[], map[], 0, false)

  datatype Reservation = Reservation(id: U64, maxFeeSats: U64)

  // ----- one ledger -------------------------------------------------------

  /** One line of the table of caps: what is already committed, and the cap. */
  datatype Check = Check(spent: U64, limit: Option<U64>)

  function Bucket(m: map<nat, U64>, slot: nat): U64 {
    if slot in m then m[slot] else 0
  }

  function Checks(l: LedgerState, limits: Limits, pending: U64, now: U64): (cs: seq<Check>)
    ensures |cs| == 5
  {
    [ Check(0, limits.perRequestMax),
      Check(SatAdd(l.total, pending), limits.totalMax),
      Check(SatAdd(Bucket(l.hourly, now / HOUR), pending), limits.hourlyMax),
      Check(SatAdd(Bucket(l.daily, now / DAY), pending), limits.dailyMax),
      Check(SatAdd(l.total, pending), Some(U64_MAX)) ]
  }

  /** What one cap leaves once `amount` is taken, if it leaves anything. */
  function Remaining(c: Check, amount: U64): Result<U64, ClientError> {
    match c.limit
    case None => Ok(U64_MAX)
    case Some(limit) =>
      if c.spent <= limit && amount <= limit - c.spent then Ok(limit - c.spent - amount) else Err(BudgetExceeded)
  }

  /** The smallest remainder over all caps, or an error if one cap is exceeded. */
  function Allowance(cs: seq<Check>, amount: U64): Result<U64, ClientError> {
    if cs == [] then Ok(U64_MAX) else
    match Allowance(cs[..|cs| - 1], amount)
    case Err(e) => Err(e)
    case Ok(a) =>
      match Remaining(cs[|cs| - 1], amount)
      case Err(e) => Err(e)
      case Ok(r) => Ok(Min(a, r))
  }

  ghost predicate Allows(c: Check, amount: nat) {
    c.limit.Some? ==> c.spent + amount <= c.limit.value
  }

  /** Exact-integer reading of the caps: `amount` on top of what is committed breaks none. */
  ghost predicate Admits(cs: seq<Check>, amount: nat) {
    forall i :: 0 <= i < |cs| ==> Allows(cs[i], amount)
  }

  lemma AdmitsPrefix(cs: seq<Check>, n: nat, amount: nat)
    requires n <= |cs|
    ensures Admits(cs, amount) ==> Admits(cs[..n], amount)
    ensures n + 1 == |cs| ==> (Admits(cs, amount) <==> Admits(cs[..n], amount) && Allows(cs[n], amount))
  {
    assert forall i :: 0 <= i < n ==> cs[..n][i] == cs[i];
    if n + 1 == |cs| && Admits(cs[..n], amount) && Allows(cs[n], amount) {
      forall i | 0 <= i < |cs| ensures Allows(cs[i], amount) {
        assert i == n || cs[i] == cs[..n][i];
      }
    }
  }

  /** The allowance exists exactly when the amount fits, and is the largest extra that still fits. */
  lemma {:induction false} AllowanceIsGreatest(cs: seq<Check>, amount: U64)
    ensures Allowance(cs, amount).Ok? <==> Admits(cs, amount)
    ensures Allowance(cs, amount).Err? ==> Allowance(cs, amount).error == BudgetExceeded
    ensures Allowance(cs, amount).Ok? ==>
              forall total: nat {:trigger Admits(cs, total)} :: amount <= total <= amount + U64_MAX ==>
                (total <= amount + Allowance(cs, amount).value <==> Admits(cs, total))
  {
    if cs == [] {
    } else {
      var n := |cs| - 1;
      AllowanceIsGreatest(cs[..n], amount);
      forall total: nat
        ensures Admits(cs, total) <==> Admits(cs[..n], total) && Allows(cs[n], total)
      {
        AdmitsPrefix(cs, n, total);
      }
    }
  }

  /** A prefix that exceeds a cap makes the whole table exceed it. */
  lemma AllowancePrefix(cs: seq<Check>, amount: U64, n: nat)
    requires n <= |cs|
    requires Allowance(cs[..n], amount).Err?
    ensures Allowance(cs, amount) == Err(BudgetExceeded)
  {
    AllowanceIsGreatest(cs, amount);
    AllowanceIsGreatest(cs[..n], amount);
    AdmitsPrefix(cs, n, amount);
  }

  function AddTo(m: map<nat, U64>, slot: nat, amount: U64): map<nat, U64> {
    m[slot := SatAdd(Bucket(m, slot), amount)]
  }

  function Retain(m: map<nat, U64>, lowest: nat): map<nat, U64> {
    map k | k in m && lowest <= k :: m[k]
  }

  function Record(l: LedgerState, amount: U64, now: U64): LedgerState {
    LedgerState(
      SatAdd(l.total, amount),
      Retain(AddTo(l.hourly, now / HOUR, amount), SatSub(now / HOUR, HOURS_KEPT)),
      Retain(AddTo(l.daily, now / DAY, amount), SatSub(now / DAY, DAYS_KEPT)))
  }

  // ----- the tracker ------------------------------------------------------

  /** The accounts a payment is charged to: the global one, and that of its domain. */
  datatype Scope = Global | Domain(name: string)

  predicate In(scope: Scope, domain: Option<string>) {
    scope.Global? || domain == Some(scope.name)
  }

  ghost function PendingIn(scope: Scope): Pending -> nat {
    (p: Pending) => if In(scope, p.domain) then p.amount else 0
  }

  /** Outstanding reservations of one account. */
  ghost function Outstanding(scope: Scope, pending: map<U64, Pending>): nat {
    SumMap(pending, PendingIn(scope))
  }

  function LedgerOf(s: TrackerState, scope: Scope): LedgerState {
    match scope
    case Global => s.global
    case Domain(d) => if d in s.domains then s.domains[d] else EMPTY_LEDGER
  }

  function LimitsOf(b: Budget, scope: Scope): Option<Limits> {
    match scope
    case Global => Some(b.limits)
    case Domain(d) => if d in b.domainBudgets then Some(b.domainBudgets[d]) else None
  }

  lemma OutstandingWithinGlobal(scope: Scope, pending: map<U64, Pending>)
    ensures Outstanding(scope, pending) <= Outstanding(Global, pending)
  {
    SumMapMonotone(pending, PendingIn(scope), PendingIn(Global));
  }

  /** The allowance one account gives; an account without limits gives everything. */
  ghost function ScopeAllowance(b: Budget, s: TrackerState, scope: Scope, amount: U64, now: U64)
      : Result<U64, ClientError>
    requires Outstanding(Global, s.pending) <= U64_MAX
  {
    OutstandingWithinGlobal(scope, s.pending);
    match LimitsOf(b, scope)
    case None => Ok(U64_MAX)
    case Some(limits) => Allowance(Checks(LedgerOf(s, scope), limits, Outstanding(scope, s.pending), now), amount)
  }

  /** The fee a reservation of `amount` is granted: what the caller asked for, cut to every allowance. */
  ghost function FeeGranted(b: Budget, s: TrackerState, amount: U64, maxFee: U64, domain: Option<string>, now: U64)
      : Result<U64, ClientError>
    requires Outstanding(Global, s.pending) <= U64_MAX
  {
    var g := ScopeAllowance(b, s, Global, amount, now);
    if g.Err? then g else
    var d := if domain.Some? then ScopeAllowance(b, s, Domain(domain.value), amount, now) else Ok(U64_MAX);
    if d.Err? then d else Ok(Min(Min(maxFee, g.value), d.value))
  }

  /** The granted amount fits the global caps and, with them, 64 bits. */
  lemma GrantFits(b: Budget, s: TrackerState, amount: U64, maxFee: U64, domain: Option<string>, now: U64)
    requires Outstanding(Global, s.pending) <= U64_MAX
    ensures var fee := FeeGranted(b, s, amount, maxFee, domain, now);
            fee.Ok? ==>
              && fee.value <= maxFee
              && SatAdd(s.global.total, Outstanding(Global, s.pending)) + amount + fee.value <= U64_MAX
  {
    var cs := Checks(s.global, b.limits, Outstanding(Global, s.pending), now);
    AllowanceIsGreatest(cs, amount);
    var fee := FeeGranted(b, s, amount, maxFee, domain, now);
    if fee.Ok? {
      assert Admits(cs, amount + fee.value);
      assert Allows(cs[4], amount + fee.value);
    }
  }

  ghost function Reserve(b: Budget, s: TrackerState, amount: U64, maxFee: U64, domain: Option<string>, now: U64)
      : (TrackerState, Result<Reservation, ClientError>)
    requires Outstanding(Global, s.pending) <= U64_MAX
  {
    if s.frozen then (s, Err(BudgetExceeded)) else
    var fee := FeeGranted(b, s, amount, maxFee, domain, now);
    if fee.Err? then (s, Err(fee.error)) else
    if s.nextId == U64_MAX then (s, Err(BudgetExceeded)) else
    GrantFits(b, s, amount, maxFee, domain, now);
    (s.(pending := s.pending[s.nextId := Pending(amount + fee.value, domain)], nextId := s.nextId + 1),
     Ok(Reservation(s.nextId, fee.value)))
  }

  function Release(s: TrackerState, id: U64): TrackerState {
    s.(pending := s.pending - {id})
  }

  /** Record a paid amount in the global ledger and in that of its domain. */
  function Charge(s: TrackerState, domain: Option<string>, amount: U64, now: U64): TrackerState {
    s.(global := Record(s.global, amount, now),
       domains := match domain
                  case None => s.domains
                  case Some(d) => s.domains[d := Record(LedgerOf(s, Domain(d)), amount, now)])
  }

  function Settle(s: TrackerState, id: U64, amount: U64, now: U64, violation: bool)
      : (TrackerState, Result<(), ClientError>)
    requires id in s.pending
  {
    var charged := Charge(Release(s, id), s.pending[id].domain, amount, now);
    if violation || amount > s.pending[id].amount then
      (charged.(frozen := true), Err(BudgetExceeded))
    else
      (charged, Ok(()))
  }

  /** A release undoes its reservation, but for the id it used up. */
  lemma ReserveThenRelease(b: Budget, s: TrackerState, amount: U64, maxFee: U64, domain: Option<string>, now: U64)
    requires Outstanding(Global, s.pending) <= U64_MAX
    requires s.nextId !in s.pending
    ensures var (s', r) := Reserve(b, s, amount, maxFee, domain, now);
            r.Ok? ==> !s.frozen && Release(s', r.value.id) == s.(nextId := s'.nextId)
  {
  }

  ghost function TotalSpent(s: TrackerState): U64 {
    Cap(s.global.total + Outstanding(Global, s.pending))
  }
}
