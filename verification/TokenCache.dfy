// The in-memory token store: a map and an order vector that must agree. It is
// one ordered list of entries; putting a known endpoint again moves it to the
// end, and the front is evicted when a new endpoint arrives at capacity.

module TokenCache {
  import opened Numbers

  datatype Entry = Entry(endpoint: string, macaroon: string, preimage: string)

  // ----- the ordered list ---------------------------------------------------

  predicate NoDuplicates(s: seq<string>) {
    forall i, j :: 0 <= i < j < |s| ==> s[i] != s[j]
  }

  function FilterOut(s: seq<string>, out: set<string>): (r: seq<string>)
    ensures forall x :: x in r <==> x in s && x !in out
  {
    if s == [] then [] else
    assert s == s[..|s| - 1] + [s[|s| - 1]];
    if s[|s| - 1] in out then FilterOut(s[..|s| - 1], out) else FilterOut(s[..|s| - 1], out) + [s[|s| - 1]]
  }

  function Endpoints(list: seq<Entry>): seq<string> {
    seq(|list|, i requires 0 <= i < |list| => list[i].endpoint)
  }

  function Drop(list: seq<Entry>, endpoint: string): seq<Entry> {
    if list == [] then []
    else if list[|list| - 1].endpoint == endpoint then Drop(list[..|list| - 1], endpoint)
    else Drop(list[..|list| - 1], endpoint) + [list[|list| - 1]]
  }

  function Find(list: seq<Entry>, endpoint: string): Option<Entry> {
    if list == [] then None
    else if list[|list| - 1].endpoint == endpoint then Some(list[|list| - 1])
    else Find(list[..|list| - 1], endpoint)
  }

  /** What putting an entry does to the list. */
  function Put(capacity: nat, list: seq<Entry>, e: Entry): seq<Entry> {
    var room := if |list| >= capacity && e.endpoint !in Endpoints(list) && list != [] then list[1..] else list;
    Drop(room, e.endpoint) + [e]
  }

  // ----- the store of the source ----------------------------------------------

  datatype Credential = Credential(macaroon: string, preimage: string)

  /** The entries of a map, in the order of a vector of its keys. */
  function Ordered(tokens: map<string, Credential>, order: seq<string>): seq<Entry>
    requires forall k :: k in order ==> k in tokens
  {
    seq(|order|, i requires 0 <= i < |order| => Entry(order[i], tokens[order[i]].macaroon, tokens[order[i]].preimage))
  }

  lemma OrderedEndpoints(tokens: map<string, Credential>, order: seq<string>)
    requires forall k :: k in order ==> k in tokens
    ensures Endpoints(Ordered(tokens, order)) == order
  {
  }

  lemma {:induction false} OrderedDrop(tokens: map<string, Credential>, order: seq<string>, endpoint: string)
    requires forall k :: k in order ==> k in tokens
    ensures Drop(Ordered(tokens, order), endpoint) == Ordered(tokens, FilterOut(order, {endpoint}))
  {
    if order == [] {
    } else {
      var n := |order| - 1;
      OrderedDrop(tokens, order[..n], endpoint);
      assert Ordered(tokens, order)[..n] == Ordered(tokens, order[..n]);
      var kept := FilterOut(order[..n], {endpoint});
      if order[n] != endpoint {
        assert Ordered(tokens, kept + [order[n]]) == Ordered(tokens, kept) + Ordered(tokens, [order[n]]);
      }
    }
  }

  lemma OrderedAppend(tokens: map<string, Credential>, kept: seq<string>, endpoint: string, c: Credential)
    requires forall k :: k in kept ==> k in tokens && k != endpoint
    ensures Ordered(tokens[endpoint := c], kept + [endpoint])
         == Ordered(tokens, kept) + [Entry(endpoint, c.macaroon, c.preimage)]
  {
  }

  lemma {:induction false} FilterOutKeepsDistinct(s: seq<string>, out: set<string>)
    requires NoDuplicates(s)
    ensures NoDuplicates(FilterOut(s, out))
    ensures |FilterOut(s, out)| <= |s|
  {
    if s == [] {
    } else {
      FilterOutKeepsDistinct(s[..|s| - 1], out);
    }
  }

  lemma {:induction false} FilterOutNothing(s: seq<string>, out: set<string>)
    requires forall x :: x in s ==> x !in out
    ensures FilterOut(s, out) == s
  {
    if s == [] {
    } else {
      FilterOutNothing(s[..|s| - 1], out);
      assert s == s[..|s| - 1] + [s[|s| - 1]];
    }
  }

  lemma {:induction false} DistinctLength(s: seq<string>, keys: set<string>)
    requires NoDuplicates(s) && forall x :: x in s <==> x in keys
    ensures |keys| == |s|
  {
    if s == [] {
      assert keys == {};
    } else {
      var n := |s| - 1;
      assert s == s[..n] + [s[n]];
      DistinctLength(s[..n], keys - {s[n]});
    }
  }

  lemma {:induction false} FindOrdered(tokens: map<string, Credential>, order: seq<string>, endpoint: string)
    requires forall k :: k in order ==> k in tokens
    ensures Find(Ordered(tokens, order), endpoint) ==
            if endpoint in order
            then Some(Entry(endpoint, tokens[endpoint].macaroon, tokens[endpoint].preimage)) else None
  {
    if order == [] {
    } else {
      var n := |order| - 1;
      FindOrdered(tokens, order[..n], endpoint);
      assert Ordered(tokens, order)[..n] == Ordered(tokens, order[..n]);
      assert order == order[..n] + [order[n]];
    }
  }

  lemma TailKeys(order: seq<string>, keys: set<string>)
    requires order != [] && NoDuplicates(order) && forall k :: k in order <==> k in keys
    ensures NoDuplicates(order[1..])
    ensures forall k :: k in order[1..] <==> k in keys - {order[0]}
  {
    assert order == [order[0]] + order[1..];
  }

  lemma OrderedTail(tokens: map<string, Credential>, order: seq<string>)
    requires order != [] && forall k :: k in order ==> k in tokens
    requires forall k :: k in order[1..] ==> k in tokens - {order[0]}
    ensures Ordered(tokens - {order[0]}, order[1..]) == Ordered(tokens, order)[1..]
  {
  }

  class InMemoryTokenStore {
    var tokens: map<string, Credential>
    var insertionOrder: seq<string>
    const capacity: nat

    /** The vector lists every key of the map once. */
    ghost predicate Valid()
      reads this
    {
      && NoDuplicates(insertionOrder)
      && forall k :: k in insertionOrder <==> k in tokens
    }

    ghost function Contents(): seq<Entry>
      requires Valid()
      reads this
    {
      Ordered(tokens, insertionOrder)
    }

    constructor (capacity: nat)
      ensures Valid() && this.capacity == capacity && Contents() == []
    {
      this.capacity := capacity;
      tokens, insertionOrder := map[], [];
    }

    method PutToken(endpoint: string, macaroon: string, preimage: string)
      requires Valid()
      modifies this
      ensures Valid()
      ensures Contents() == Put(capacity, old(Contents()), Entry(endpoint, macaroon, preimage))
    {
      DistinctLength(insertionOrder, tokens.Keys);
      OrderedEndpoints(tokens, insertionOrder);
      if |tokens| >= capacity && endpoint !in tokens && insertionOrder != [] {
        EvictOldest();
      }
      AppendFresh(endpoint, Credential(macaroon, preimage));
    }

    /** Move or add an endpoint to the end of the order. */
    method AppendFresh(endpoint: string, credential: Credential)
      requires Valid()
      modifies this
      ensures Valid()
      ensures Contents()
           == Drop(old(Contents()), endpoint) + [Entry(endpoint, credential.macaroon, credential.preimage)]
    {
      OrderedDrop(tokens, insertionOrder, endpoint);
      FilterOutKeepsDistinct(insertionOrder, {endpoint});
      ghost var kept := FilterOut(insertionOrder, {endpoint});
      OrderedAppend(tokens, kept, endpoint, credential);
      if endpoint in tokens {
        insertionOrder := FilterOut(insertionOrder, {endpoint});
      } else {
        FilterOutNothing(insertionOrder, {endpoint});
      }
      tokens := tokens[endpoint := credential];
      insertionOrder := insertionOrder + [endpoint];
    }

    method EvictOldest()
      requires Valid() && insertionOrder != []
      modifies this
      ensures Valid() && insertionOrder == old(insertionOrder)[1..]
      ensures Contents() == old(Contents())[1..]
    {
      TailKeys(insertionOrder, tokens.Keys);
      OrderedTail(tokens, insertionOrder);
      tokens := tokens - {insertionOrder[0]};
      insertionOrder := insertionOrder[1..];
    }

    method Get(endpoint: string) returns (r: Option<Credential>)
      requires Valid()
      ensures r == match Find(Contents(), endpoint)
                   case None => None
                   case Some(e) => Some(Credential(e.macaroon, e.preimage))
    {
      FindOrdered(tokens, insertionOrder, endpoint);
      return if endpoint in tokens then Some(tokens[endpoint]) else None;
    }

    method Remove(endpoint: string)
      requires Valid()
      modifies this
      ensures Valid()
      ensures Contents() == Drop(old(Contents()), endpoint)
    {
      OrderedDrop(tokens, insertionOrder, endpoint);
      FilterOutKeepsDistinct(insertionOrder, {endpoint});
      tokens := tokens - {endpoint};
      insertionOrder := FilterOut(insertionOrder, {endpoint});
    }

    method Clear()
      requires Valid()
      modifies this
      ensures Valid()
      ensures Contents() == []
    {
      tokens := map[];
      insertionOrder := [];
    }
  }

  // ----- every trace -----------------------------------------------------------

  datatype Op = Putting(entry: Entry) | Reading(endpoint: string) | Removing(endpoint: string) | Clearing

  function Apply(capacity: nat, list: seq<Entry>, op: Op): seq<Entry> {
    match op
    case Putting(e) => Put(capacity, list, e)
    case Reading(_) => list
    case Removing(k) => Drop(list, k)
    case Clearing => []
  }

  function Trace(capacity: nat, ops: seq<Op>): seq<Entry> {
    if ops == [] then [] else Apply(capacity, Trace(capacity, ops[..|ops| - 1]), ops[|ops| - 1])
  }

  /** The last entry put for an endpoint that was neither removed nor cleared since. */
  function LatestPut(ops: seq<Op>, endpoint: string): Option<Entry> {
    if ops == [] then None else
    var op := ops[|ops| - 1];
    if op.Putting? && op.entry.endpoint == endpoint then Some(op.entry)
    else if op.Clearing? || op == Removing(endpoint) then None
    else LatestPut(ops[..|ops| - 1], endpoint)
  }

  lemma {:induction false} DropFacts(list: seq<Entry>, endpoint: string)
    ensures Endpoints(Drop(list, endpoint)) == FilterOut(Endpoints(list), {endpoint})
    ensures |Drop(list, endpoint)| <= |list|
    ensures forall k :: Find(Drop(list, endpoint), k) == if k == endpoint then None else Find(list, k)
  {
    if list == [] {
    } else {
      var n := |list| - 1;
      DropFacts(list[..n], endpoint);
      assert Endpoints(list)[..n] == Endpoints(list[..n]);
      var kept := Drop(list[..n], endpoint);
      if list[n].endpoint != endpoint {
        assert (kept + [list[n]])[..|kept|] == kept;
        assert Endpoints(kept + [list[n]]) == Endpoints(kept) + [list[n].endpoint];
      }
    }
  }

  /** Eviction can only forget an endpoint, and only the oldest. */
  lemma {:induction false} FindInTail(list: seq<Entry>, k: string)
    requires list != []
    ensures Find(list[1..], k) == Find(list, k) || Find(list[1..], k) == None
    ensures Find(list, k).Some? ==> Find(list, k).value.endpoint == k
  {
    var n := |list| - 1;
    if n == 0 {
    } else {
      FindInTail(list[..n], k);
      assert list[1..][..n - 1] == list[..n][1..];
    }
  }

  lemma PutFacts(capacity: nat, list: seq<Entry>, e: Entry)
    requires NoDuplicates(Endpoints(list)) && |list| <= Max(1, capacity)
    ensures NoDuplicates(Endpoints(Put(capacity, list, e)))
    ensures |Put(capacity, list, e)| <= Max(1, capacity)
    ensures Find(Put(capacity, list, e), e.endpoint) == Some(e)
    ensures forall k :: k != e.endpoint ==>
              Find(Put(capacity, list, e), k) == Find(list, k) || Find(Put(capacity, list, e), k) == None
  {
    var evicts := |list| >= capacity && e.endpoint !in Endpoints(list) && list != [];
    var room := if evicts then list[1..] else list;
    var kept := Drop(room, e.endpoint);
    DropFacts(room, e.endpoint);
    assert Endpoints(list[if evicts then 1 else 0..]) == Endpoints(list)[if evicts then 1 else 0..];
    assert list[0..] == list;
    assert NoDuplicates(Endpoints(room));
    FilterOutKeepsDistinct(Endpoints(room), {e.endpoint});
    assert Endpoints(kept + [e]) == Endpoints(kept) + [e.endpoint];
    assert (kept + [e])[..|kept|] == kept;
    if !evicts && e.endpoint in Endpoints(list) {
      FilterOutShrinks(Endpoints(list), e.endpoint);
    }
    if evicts {
      forall k ensures Find(room, k) == Find(list, k) || Find(room, k) == None {
        FindInTail(list, k);
      }
    }
  }

  lemma {:induction false} FilterOutShrinks(s: seq<string>, x: string)
    requires x in s && NoDuplicates(s)
    ensures |FilterOut(s, {x})| == |s| - 1
  {
    var n := |s| - 1;
    assert s == s[..n] + [s[n]];
    if s[n] == x {
      FilterOutNothing(s[..n], {x});
    } else {
      FilterOutShrinks(s[..n], x);
    }
  }

  /**
   * Over any trace the endpoints are distinct, at most max(1, capacity) entries
   * are held (a store of capacity 0 still holds one), and a lookup yields the
   * latest put for its endpoint or nothing.
   */
  lemma {:induction false} TraceIsSound(capacity: nat, ops: seq<Op>)
    ensures NoDuplicates(Endpoints(Trace(capacity, ops)))
    ensures |Trace(capacity, ops)| <= Max(1, capacity)
    ensures forall k :: Find(Trace(capacity, ops), k) == LatestPut(ops, k) || Find(Trace(capacity, ops), k) == None
  {
    if ops == [] {
    } else {
      var n := |ops| - 1;
      TraceIsSound(capacity, ops[..n]);
      var list := Trace(capacity, ops[..n]);
      match ops[n]
      case Putting(e) => PutFacts(capacity, list, e);
      case Reading(_) =>
      case Removing(k) =>
        DropFacts(list, k);
        FilterOutKeepsDistinct(Endpoints(list), {k});
      case Clearing =>
    }
  }

  lemma TraceAppend(capacity: nat, ops: seq<Op>, op: Op)
    ensures Trace(capacity, ops + [op]) == Apply(capacity, Trace(capacity, ops), op)
  {
    assert (ops + [op])[..|ops|] == ops;
  }

  lemma {:induction false} FrontIsGone(list: seq<Entry>, e: Entry)
    requires list != [] && NoDuplicates(Endpoints(list)) && e.endpoint !in Endpoints(list)
    ensures Find(Drop(list[1..], e.endpoint) + [e], list[0].endpoint) == None
  {
    var k, rest := list[0].endpoint, list[1..];
    EndpointsOfTail(list);
    assert e.endpoint != k by {
      assert Endpoints(list)[0] == k;
    }
    assert k !in Endpoints(rest) by {
      forall i | 0 <= i < |rest| ensures Endpoints(rest)[i] != k {
        assert Endpoints(rest)[i] == Endpoints(list)[i + 1] && Endpoints(list)[0] == k;
      }
    }
    FindIffHeld(rest, k);
    DropFacts(rest, e.endpoint);
    var kept := Drop(rest, e.endpoint);
    assert (kept + [e])[..|kept|] == kept;
  }

  /** A full store evicts the endpoint put longest ago, even if it was read just before. */
  lemma ReadingDoesNotRenew(capacity: nat, ops: seq<Op>, e: Entry)
    requires var list := Trace(capacity, ops); list != [] && |list| >= capacity && e.endpoint !in Endpoints(list)
    ensures var oldest := Trace(capacity, ops)[0].endpoint;
            Find(Trace(capacity, ops + [Reading(oldest)] + [Putting(e)]), oldest) == None
  {
    var list := Trace(capacity, ops);
    TraceIsSound(capacity, ops);
    TraceAppend(capacity, ops, Reading(list[0].endpoint));
    TraceAppend(capacity, ops + [Reading(list[0].endpoint)], Putting(e));
    FrontIsGone(list, e);
  }

  /** A store of capacity 0 holds exactly the entry put last. */
  lemma CapacityZeroHoldsOne(ops: seq<Op>, e: Entry)
    ensures Trace(0, ops + [Putting(e)]) == [e]
  {
    TraceIsSound(0, ops);
    TraceAppend(0, ops, Putting(e));
    var list := Trace(0, ops);
    if |list| == 1 && list[0].endpoint == e.endpoint {
      assert Endpoints(list) == [e.endpoint];
      assert list[..0] == [] && Drop([], e.endpoint) == [];
    } else if |list| == 1 {
      assert Endpoints(list) == [list[0].endpoint] && list[1..] == [];
    }
  }

  // ----- traces of puts: what exactly is held ------------------------------------

  function Puts(entries: seq<Entry>): seq<Op> {
    seq(|entries|, i requires 0 <= i < |entries| => Putting(entries[i]))
  }

  /** Read a history of puts backwards and keep the first `n` distinct endpoints not seen before. */
  function LastDistinct(history: seq<string>, seen: set<string>, n: nat): seq<string> {
    if history == [] || n == 0 then [] else
    var k, rest := history[|history| - 1], history[..|history| - 1];
    if k in seen then LastDistinct(rest, seen, n)
    else LastDistinct(rest, seen + {k}, n - 1) + [k]
  }

  /** All distinct endpoints of a history, by their most recent put. */
  function ByRecency(history: seq<string>): seq<string> {
    if history == [] then [] else
    FilterOut(ByRecency(history[..|history| - 1]), {history[|history| - 1]}) + [history[|history| - 1]]
  }

  function Suffix(s: seq<string>, n: nat): seq<string> {
    if |s| <= n then s else s[|s| - n..]
  }

  lemma {:induction false} FilterOutTwice(s: seq<string>, a: set<string>, b: set<string>)
    ensures FilterOut(FilterOut(s, a), b) == FilterOut(s, a + b)
  {
    if s == [] {
    } else {
      var n := |s| - 1;
      FilterOutTwice(s[..n], a, b);
      var kept := FilterOut(s[..n], a);
      assert (kept + [s[n]])[..|kept|] == kept;
    }
  }

  lemma {:induction false} FilterOutConcat(s: seq<string>, t: seq<string>, out: set<string>)
    ensures FilterOut(s + t, out) == FilterOut(s, out) + FilterOut(t, out)
  {
    if t == [] {
      assert s + t == s;
    } else {
      FilterOutConcat(s, t[..|t| - 1], out);
      assert (s + t)[..|s + t| - 1] == s + t[..|t| - 1];
    }
  }

  /** How one more put shows in the distinct endpoints outside `seen`. */
  lemma RecencyStep(rest: seq<string>, k: string, seen: set<string>)
    ensures FilterOut(FilterOut(ByRecency(rest), {k}) + [k], seen) ==
            if k in seen then FilterOut(ByRecency(rest), seen) else FilterOut(ByRecency(rest), seen + {k}) + [k]
  {
    var kept := FilterOut(ByRecency(rest), {k});
    FilterOutTwice(ByRecency(rest), {k}, seen);
    assert (kept + [k])[..|kept|] == kept;
    assert if k in seen then {k} + seen == seen else {k} + seen == seen + {k};
  }

  lemma SuffixAppend(s: seq<string>, k: string, n: nat)
    requires n > 0
    ensures Suffix(s + [k], n) == Suffix(s, n - 1) + [k]
  {
  }

  lemma OneMorePut(rest: seq<string>, k: string, seen: set<string>, n: nat)
    requires n > 0
    ensures ByRecency(rest + [k]) == FilterOut(ByRecency(rest), {k}) + [k]
    ensures LastDistinct(rest + [k], seen, n) ==
            if k in seen then LastDistinct(rest, seen, n) else LastDistinct(rest, seen + {k}, n - 1) + [k]
  {
    assert (rest + [k])[..|rest|] == rest;
  }

  /** The two readings of a history of puts, backwards and forwards, agree. */
  predicate Agree(history: seq<string>, seen: set<string>, n: nat) {
    LastDistinct(history, seen, n) == Suffix(FilterOut(ByRecency(history), seen), n)
  }

  lemma AgreeAtStart(history: seq<string>, seen: set<string>, n: nat)
    requires n == 0 || history == []
    ensures Agree(history, seen, n)
  {
  }

  lemma {:induction false} LastDistinctByRecency(history: seq<string>, seen: set<string>, n: nat)
    ensures Agree(history, seen, n)
    decreases |history|
  {
    if n == 0 || history == [] {
      AgreeAtStart(history, seen, n);
    } else {
      var k, rest := history[|history| - 1], history[..|history| - 1];
      LastDistinctByRecency(rest, seen, n);
      LastDistinctByRecency(rest, seen + {k}, n - 1);
      LastDistinctStep(rest, k, seen, n);
      assert history == rest + [k];
    }
  }

  lemma LastDistinctStep(rest: seq<string>, k: string, seen: set<string>, n: nat)
    requires n > 0 && Agree(rest, seen, n) && Agree(rest, seen + {k}, n - 1)
    ensures Agree(rest + [k], seen, n)
  {
    OneMorePut(rest, k, seen, n);
    RecencyStep(rest, k, seen);
    if k !in seen {
      SuffixAppend(FilterOut(ByRecency(rest), seen + {k}), k, n);
    }
  }

  lemma {:induction false} ByRecencyDistinct(history: seq<string>)
    ensures NoDuplicates(ByRecency(history))
  {
    if history == [] {
    } else {
      var n := |history| - 1;
      ByRecencyDistinct(history[..n]);
      FilterOutKeepsDistinct(ByRecency(history[..n]), {history[n]});
    }
  }

  lemma EndpointsAppend(list: seq<Entry>, e: Entry)
    ensures Endpoints(list + [e]) == Endpoints(list) + [e.endpoint]
  {
  }

  /** Putting an endpoint that is held moves it to the end. */
  lemma PutKnownEndpoint(capacity: nat, older: seq<string>, list: seq<Entry>, e: Entry)
    requires NoDuplicates(older + Endpoints(list)) && e.endpoint in Endpoints(list)
    ensures FilterOut(older + Endpoints(list), {e.endpoint}) == older + FilterOut(Endpoints(list), {e.endpoint})
    ensures |FilterOut(Endpoints(list), {e.endpoint})| == |list| - 1
    ensures Endpoints(Put(capacity, list, e)) == FilterOut(Endpoints(list), {e.endpoint}) + [e.endpoint]
  {
    var k, held := e.endpoint, Endpoints(list);
    var j :| 0 <= j < |held| && held[j] == k;
    assert (older + held)[|older| + j] == k;
    forall i | 0 <= i < |older| ensures older[i] != k {
      assert older[i] == (older + held)[i];
    }
    assert NoDuplicates(held) by {
      forall i, m | 0 <= i < m < |held| ensures held[i] != held[m] {
        assert held[i] == (older + held)[|older| + i] && held[m] == (older + held)[|older| + m];
      }
    }
    FilterOutConcat(older, held, {k});
    FilterOutNothing(older, {k});
    FilterOutShrinks(held, k);
    DropFacts(list, k);
    EndpointsAppend(Drop(list, k), e);
  }

  lemma EndpointsOfTail(list: seq<Entry>)
    requires list != []
    ensures Endpoints(list[1..]) == Endpoints(list)[1..]
  {
  }

  /** Putting a new endpoint evicts the front if there is no room. */
  lemma PutNewEndpoint(capacity: nat, older: seq<string>, list: seq<Entry>, e: Entry)
    requires e.endpoint !in Endpoints(list)
    ensures FilterOut(older + Endpoints(list), {e.endpoint}) == FilterOut(older, {e.endpoint}) + Endpoints(list)
    ensures Endpoints(Put(capacity, list, e)) ==
            (if |list| >= capacity && list != [] then Endpoints(list)[1..] else Endpoints(list)) + [e.endpoint]
  {
    FilterOutConcat(older, Endpoints(list), {e.endpoint});
    FilterOutNothing(Endpoints(list), {e.endpoint});
    if |list| >= capacity && list != [] {
      EndpointsOfTail(list);
      AppendNew(list[1..], e);
    } else {
      AppendNew(list, e);
    }
  }

  lemma AppendNew(room: seq<Entry>, e: Entry)
    requires e.endpoint !in Endpoints(room)
    ensures Endpoints(Drop(room, e.endpoint) + [e]) == Endpoints(room) + [e.endpoint]
  {
    DropFacts(room, e.endpoint);
    FilterOutNothing(Endpoints(room), {e.endpoint});
    EndpointsAppend(Drop(room, e.endpoint), e);
  }

  lemma SuffixOfConcat(a: seq<string>, b: seq<string>, n: nat)
    ensures |b| == n ==> Suffix(a + b, n) == b
    ensures a == [] && |b| <= n ==> Suffix(a + b, n) == b
  {
    assert (a + b)[|a|..] == b;
  }

  /** The newest `n` of `older + held`, where `held` are those the store has. */
  predicate HoldsNewest(older: seq<string>, held: seq<string>, n: nat) {
    |held| == n || (older == [] && |held| <= n)
  }

  lemma PutKeepsNewest(capacity: nat, all: seq<string>, older: seq<string>, list: seq<Entry>, e: Entry)
    requires all == older + Endpoints(list)
    requires NoDuplicates(all) && HoldsNewest(older, Endpoints(list), Max(1, capacity))
    ensures Endpoints(Put(capacity, list, e)) == Suffix(FilterOut(all, {e.endpoint}) + [e.endpoint], Max(1, capacity))
  {
    var n, k, held := Max(1, capacity), e.endpoint, Endpoints(list);
    SuffixAppend(FilterOut(all, {k}), k, n);
    if k in held {
      PutKnownEndpoint(capacity, older, list, e);
      SuffixOfConcat(older, FilterOut(held, {k}), n - 1);
    } else {
      PutNewEndpoint(capacity, older, list, e);
      var rest := FilterOut(older, {k});
      if |list| == n {
        assert rest + held == (rest + held[..1]) + held[1..];
        SuffixOfConcat(rest + held[..1], held[1..], n - 1);
      } else {
        SuffixOfConcat(rest, held, n - 1);
      }
    }
  }

  lemma SuffixSplits(all: seq<string>, n: nat)
    ensures var older := all[..|all| - |Suffix(all, n)|];
            all == older + Suffix(all, n) && HoldsNewest(older, Suffix(all, n), n)
  {
  }

  /** One more put keeps the store at the newest endpoints. */
  lemma PutKeepsSuffix(capacity: nat, all: seq<string>, list: seq<Entry>, e: Entry)
    requires NoDuplicates(all) && Endpoints(list) == Suffix(all, Max(1, capacity))
    ensures Endpoints(Put(capacity, list, e)) == Suffix(FilterOut(all, {e.endpoint}) + [e.endpoint], Max(1, capacity))
  {
    SuffixSplits(all, Max(1, capacity));
    PutKeepsNewest(capacity, all, all[..|all| - |Endpoints(list)|], list, e);
  }

  lemma {:induction false} FindIffHeld(list: seq<Entry>, k: string)
    ensures Find(list, k).Some? <==> k in Endpoints(list)
  {
    if list == [] {
    } else {
      var n := |list| - 1;
      FindIffHeld(list[..n], k);
      assert Endpoints(list) == Endpoints(list[..n]) + [list[n].endpoint];
    }
  }

  /**
   * After puts only, the store holds exactly the last max(1, capacity) distinct
   * endpoints, oldest put first, and a lookup finds exactly those, each with
   * its latest put.
   */
  lemma PutsKeepNewest(capacity: nat, entries: seq<Entry>)
    ensures var list, newest := Trace(capacity, Puts(entries)), LastDistinct(Endpoints(entries), {}, Max(1, capacity));
            && Endpoints(list) == newest
            && forall k :: Find(list, k) == if k in newest then LatestPut(Puts(entries), k) else None
  {
    TraceByRecency(capacity, entries);
    LastDistinctByRecency(Endpoints(entries), {}, Max(1, capacity));
    FilterOutNothing(ByRecency(Endpoints(entries)), {});
    TraceIsSound(capacity, Puts(entries));
    var list := Trace(capacity, Puts(entries));
    forall k ensures Find(list, k) == if k in Endpoints(list) then LatestPut(Puts(entries), k) else None {
      FindIffHeld(list, k);
    }
  }

  lemma PutsAppend(capacity: nat, before: seq<Entry>, e: Entry)
    ensures Trace(capacity, Puts(before + [e])) == Put(capacity, Trace(capacity, Puts(before)), e)
    ensures ByRecency(Endpoints(before + [e])) == FilterOut(ByRecency(Endpoints(before)), {e.endpoint}) + [e.endpoint]
  {
    assert Puts(before + [e])[..|before|] == Puts(before);
    assert Endpoints(before + [e])[..|before|] == Endpoints(before);
  }

  lemma {:induction false} TraceByRecency(capacity: nat, entries: seq<Entry>)
    ensures Endpoints(Trace(capacity, Puts(entries))) == Suffix(ByRecency(Endpoints(entries)), Max(1, capacity))
  {
    if entries == [] {
    } else {
      var before, e := entries[..|entries| - 1], entries[|entries| - 1];
      assert entries == before + [e];
      TraceByRecency(capacity, before);
      PutsAppend(capacity, before, e);
      ByRecencyDistinct(Endpoints(before));
      PutKeepsSuffix(capacity, ByRecency(Endpoints(before)), Trace(capacity, Puts(before)), e);
    }
  }
}
