// The budget tracker as the source writes it: ledgers and maps updated in
// place, sums taken over maps in whatever order the map yields its entries,
// checked and saturating 64-bit arithmetic. Every method is proved equal to
// its function in BudgetModel.dfy.

module BudgetTracker {
  import opened Numbers
  import opened Sums
  import opened BudgetModel

  class Ledger {
    var total: U64
    var hourly: map<nat, U64>
    var daily: map<nat, U64>

    ghost function State(): LedgerState
      reads this
    {
      LedgerState(total, hourly, daily)
    }

    constructor ()
      ensures State() == EMPTY_LEDGER
    {
      total, hourly, daily := 0, map[], map[];
    }

    method AllowanceFor(limits: Limits, amount: U64, pending: U64, now: U64) returns (r: Result<U64, ClientError>)
      ensures r == Allowance(Checks(State(), limits, pending, now), amount)
    {
      var allowance: U64 := U64_MAX;
      var table := [
        Check(0, limits.perRequestMax),
        Check(SatAdd(total, pending), limits.totalMax),
        Check(SatAdd(Bucket(hourly, now / HOUR), pending), limits.hourlyMax),
        Check(SatAdd(Bucket(daily, now / DAY), pending), limits.dailyMax),
        Check(SatAdd(total, pending), Some(U64_MAX)) ];
      assert table == Checks(State(), limits, pending, now);
      for i := 0 to |table|
        invariant Allowance(table[..i], amount) == Ok(allowance)
      {
        assert table[..i + 1][..i] == table[..i];
        if table[i].limit.Some? {
          var limit := table[i].limit.value;
          if limit < table[i].spent || limit - table[i].spent < amount {
            AllowancePrefix(table, amount, i + 1);
            return Err(BudgetExceeded);
          }
          allowance := Min(allowance, limit - table[i].spent - amount);
        }
      }
      assert table[..|table|] == table;
      return Ok(allowance);
    }

    method RecordPayment(amount: U64, now: U64)
      modifies this
      ensures State() == Record(old(State()), amount, now)
    {
      total := SatAdd(total, amount);
      hourly := AddTo(hourly, now / HOUR, amount);
      daily := AddTo(daily, now / DAY, amount);
      hourly := Retain(hourly, SatSub(now / HOUR, HOURS_KEPT));
      daily := Retain(daily, SatSub(now / DAY, DAYS_KEPT));
    }
  }

  class Tracker {
    const budget: Budget
    var global: Ledger
    var domains: map<string, Ledger>
    var pending: map<U64, Pending>
    var nextId: U64
    var frozen: bool

    ghost function Ledgers(): set<Ledger>
      reads this
    {
      {global} + domains.Values
    }

    /** Every account has a ledger of its own, reservations add up within 64 bits, and ids are not reused. */
    ghost predicate Valid()
      reads this
    {
      && (forall d :: d in domains ==> domains[d] != global)
      && (forall d, e :: d in domains && e in domains && d != e ==> domains[d] != domains[e])
      && Outstanding(Global, pending) <= U64_MAX
      && (forall id :: id in pending ==> id < nextId)
    }

    ghost function DomainStates(): map<string, LedgerState>
      reads this`domains, domains.Values
    {
      map d | d in domains :: domains[d].State()
    }

    ghost function State(): TrackerState
      reads this, Ledgers()
    {
      TrackerState(global.State(), DomainStates(), pending, nextId, frozen)
    }

    constructor (budget: Budget)
      ensures Valid() && this.budget == budget
      ensures State() == NEW_TRACKER
      ensures fresh(Ledgers())
    {
      this.budget := budget;
      global := new Ledger();
      domains, pending, nextId, frozen := map[], map[], 0, false;
    }

    /** The reservations of one account, added up in any iteration order without overflow. */
    method SumPending(scope: Scope) returns (sum: U64)
      requires Valid()
      ensures sum == Outstanding(scope, pending)
    {
      sum := 0;
      var rest := pending;
      OutstandingWithinGlobal(scope, pending);
      while rest != map[]
        invariant rest.Keys <= pending.Keys
        invariant sum + SumMap(rest, PendingIn(scope)) == Outstanding(scope, pending)
        decreases rest.Keys
      {
        var id :| id in rest;
        SumMapRemove(rest, PendingIn(scope), id);
        if In(scope, rest[id].domain) {
          sum := sum + rest[id].amount;
        }
        rest := rest - {id};
      }
    }

    method GlobalAllowance(amount: U64, now: U64) returns (r: Result<U64, ClientError>)
      requires Valid()
      ensures r == ScopeAllowance(budget, State(), Global, amount, now)
    {
      var total := SumPending(Global);
      r := global.AllowanceFor(budget.limits, amount, total, now);
    }

    /** A domain without a ledger yet has spent nothing; a domain without limits restricts nothing. */
    method DomainAllowance(d: string, amount: U64, now: U64) returns (r: Result<U64, ClientError>)
      requires Valid()
      ensures r == ScopeAllowance(budget, State(), Domain(d), amount, now)
    {
      if d !in budget.domainBudgets {
        return Ok(U64_MAX);
      }
      var total := SumPending(Domain(d));
      var ledger := new Ledger();
      if d in domains {
        ledger := domains[d];
      }
      assert ledger.State() == LedgerOf(State(), Domain(d));
      r := ledger.AllowanceFor(budget.domainBudgets[d], amount, total, now);
    }

    method DecideFee(amount: U64, maxFee: U64, domain: Option<string>, now: U64) returns (r: Result<U64, ClientError>)
      requires Valid()
      ensures r == FeeGranted(budget, State(), amount, maxFee, domain, now)
    {
      var allowed := GlobalAllowance(amount, now);
      if allowed.Err? {
        return allowed;
      }
      var fee := Min(maxFee, allowed.value);
      if domain.Some? {
        allowed := DomainAllowance(domain.value, amount, now);
        if allowed.Err? {
          return allowed;
        }
        fee := Min(fee, allowed.value);
      }
      return Ok(fee);
    }

    /** Hold an amount that fits 64 bits beside the others, under a fresh id. */
    method Hold(amount: U64, domain: Option<string>) returns (id: U64)
      requires Valid() && nextId < U64_MAX
      requires Outstanding(Global, pending) + amount <= U64_MAX
      modifies this`pending, this`nextId
      ensures Valid()
      ensures id == old(nextId)
      ensures State() == old(State()).(pending := old(pending)[id := Pending(amount, domain)], nextId := id + 1)
    {
      id := nextId;
      SumMapInsert(pending, PendingIn(Global), id, Pending(amount, domain));
      nextId := id + 1;
      pending := pending[id := Pending(amount, domain)];
    }

    method ReserveAt(amount: U64, maxFee: U64, domain: Option<string>, now: U64)
        returns (r: Result<Reservation, ClientError>)
      requires Valid()
      modifies this`pending, this`nextId
      ensures Valid()
      ensures (State(), r) == Reserve(budget, old(State()), amount, maxFee, domain, now)
    {
      if frozen {
        return Err(BudgetExceeded);
      }
      var fee := DecideFee(amount, maxFee, domain, now);
      if fee.Err? {
        return Err(fee.error);
      }
      if nextId == U64_MAX {
        return Err(BudgetExceeded);
      }
      GrantFits(budget, State(), amount, maxFee, domain, now);
      var id := Hold(amount + fee.value, domain);
      return Ok(Reservation(id, fee.value));
    }

    method Release(reservation: Reservation)
      requires Valid()
      modifies this`pending
      ensures Valid()
      ensures State() == BudgetModel.Release(old(State()), reservation.id)
    {
      if reservation.id in pending {
        SumMapRemove(pending, PendingIn(Global), reservation.id);
      } else {
        assert pending - {reservation.id} == pending;
      }
      pending := pending - {reservation.id};
    }

    /** The ledger of a domain, which is created by the domain's first payment. */
    method OpenLedger(d: string) returns (ledger: Ledger)
      requires Valid()
      modifies this`domains
      ensures Valid() && d in domains && domains == old(domains)[d := ledger]
      ensures fresh(domains.Values - old(domains.Values))
      ensures ledger.State() == old(LedgerOf(State(), Domain(d)))
    {
      if d in domains {
        return domains[d];
      }
      ledger := new Ledger();
      domains := domains[d := ledger];
    }

    /** Record a payment in a domain's ledger. */
    method RecordInDomain(d: string, amount: U64, now: U64)
      requires Valid()
      modifies this`domains, domains.Values
      ensures Valid() && fresh(domains.Values - old(domains.Values))
      ensures DomainStates() == old(DomainStates()[d := Record(LedgerOf(State(), Domain(d)), amount, now)])
    {
      var ledger := OpenLedger(d);
      ledger.RecordPayment(amount, now);
      ghost var after := old(DomainStates()[d := Record(LedgerOf(State(), Domain(d)), amount, now)]);
      forall e | e in domains ensures e in after && DomainStates()[e] == after[e] {
        if e != d {
          assert domains[e] == old(domains)[e];
        }
      }
      assert DomainStates() == after;
    }

    /** Record a payment in the global ledger and in that of its domain, if it has one. */
    method RecordPayment(domain: Option<string>, amount: U64, now: U64)
      requires Valid()
      modifies this`domains, Ledgers()
      ensures Valid() && fresh(Ledgers() - old(Ledgers()))
      ensures State() == Charge(old(State()), domain, amount, now)
    {
      assert global !in domains.Values;
      global.RecordPayment(amount, now);
      assert DomainStates() == old(DomainStates());
      if domain.Some? {
        RecordInDomain(domain.value, amount, now);
      }
    }

    /** Take a reservation out and charge what was paid on it. */
    method ChargeReserved(reservation: Reservation, amount: U64, now: U64) returns (reserved: U64)
      requires Valid()
      requires reservation.id in pending
      modifies this`pending, this`domains, Ledgers()
      ensures Valid() && fresh(Ledgers() - old(Ledgers()))
      ensures reserved == old(pending[reservation.id].amount)
      ensures State() == Charge(BudgetModel.Release(old(State()), reservation.id),
                                old(pending[reservation.id].domain), amount, now)
    {
      var entry := pending[reservation.id];
      Release(reservation);
      RecordPayment(entry.domain, amount, now);
      return entry.amount;
    }

    /** `live reservation` is what the source insists on; PaymentTheorems shows that the client always has one. */
    method SettleAt(reservation: Reservation, amount: U64, now: U64, violation: bool)
        returns (r: Result<(), ClientError>)
      requires Valid()
      requires reservation.id in pending
      modifies this, Ledgers()
      ensures Valid() && fresh(Ledgers() - old(Ledgers()))
      ensures (State(), r) == Settle(old(State()), reservation.id, amount, now, violation)
    {
      var reserved := ChargeReserved(reservation, amount, now);
      if violation || amount > reserved {
        frozen := true;
        return Err(BudgetExceeded);
      }
      return Ok(());
    }

    /**
     * Reserve without a fee and settle the same amount. It never freezes the
     * tracker, and either changes nothing or moves the amount into the ledgers.
     */
    method CheckAndRecord(amount: U64, domain: Option<string>, reserveNow: U64, settleNow: U64)
        returns (r: Result<(), ClientError>)
      requires Valid()
      modifies this, Ledgers()
      ensures Valid() && fresh(Ledgers() - old(Ledgers()))
      ensures r.Ok? <==> Reserve(budget, old(State()), amount, 0, domain, reserveNow).1.Ok?
      ensures r.Err? ==> State() == old(State())
      ensures r.Ok? ==> State() == Charge(old(State()), domain, amount, settleNow).(nextId := old(nextId) + 1)
    {
      var reservation := ReserveAt(amount, 0, domain, reserveNow);
      if reservation.Err? {
        return Err(reservation.error);
      }
      ReserveThenRelease(budget, old(State()), amount, 0, domain, reserveNow);
      GrantFits(budget, old(State()), amount, 0, domain, reserveNow);
      r := SettleAt(reservation.value, amount, settleNow, false);
    }

    /** Settled spending plus reservations, saturating, in any iteration order. */
    method TotalSpentNow() returns (total: U64)
      requires Valid()
      ensures total == TotalSpent(State())
    {
      total := global.total;
      var rest := pending;
      while rest != map[]
        invariant SumMap(rest, PendingIn(Global)) <= Outstanding(Global, pending)
        invariant total == Cap(global.total + (Outstanding(Global, pending) - SumMap(rest, PendingIn(Global))))
        decreases rest.Keys
      {
        var id :| id in rest;
        SumMapRemove(rest, PendingIn(Global), id);
        total := SatAdd(total, rest[id].amount);
        rest := rest - {id};
      }
    }
  }
}
