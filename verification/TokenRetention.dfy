// Proof of payment is kept in memory until storing it succeeds.
//
// Any number of tasks run `persist_token`: each retains its token for a URL in
// memory, then asks the token store to put it, and once the put has returned
// drops the retained token if it is still the same one. A put may fail or be
// cancelled. When a server rejects a token for a URL, the client forgets what
// it retained for that URL at once, and then asks the store to remove what it
// has; other tasks may come between the two. The store forgets only what it is
// asked to remove.

module TokenRetention {
  import opened Numbers
  import opened Token

  datatype Pc = Putting | Stored | Done

  datatype Task = Task(url: string, token: L402Token, pc: Pc)

  datatype Removal = Removal(url: string, pending: bool)

  /** The client's own map, the store, and what the tasks are still doing to them. */
  datatype State = State(
    unpersisted: map<string, L402Token>,
    store: map<string, L402Token>,
    tasks: seq<Task>,
    removals: seq<Removal>)

  const NEW := State(map[], map[], [], [])

  datatype Event =
    | Retain(url: string, token: L402Token)
    | PutReturns(task: nat)
    | PutFails(task: nat) // or is cancelled
    | Confirm(task: nat)
    | Abandon(task: nat) // cancelled, or told of a failure, although the put took effect
    | Reject(url: string)
    | StoreRemoves(removal: nat)
    | RemovalFails(removal: nat) // or is cancelled

  predicate AtPc(s: State, i: nat, pc: Pc) {
    i < |s.tasks| && s.tasks[i].pc == pc
  }

  predicate Removing(s: State, k: nat) {
    k < |s.removals| && s.removals[k].pending
  }

  function SetPc(s: State, i: nat, pc: Pc): State
    requires i < |s.tasks|
  {
    s.(tasks := s.tasks[i := s.tasks[i].(pc := pc)])
  }

  function EndRemoval(s: State, k: nat): State
    requires k < |s.removals|
  {
    s.(removals := s.removals[k := s.removals[k].(pending := false)])
  }

  /** Drop the retained token if it is still the one that was stored. */
  function Unretain(unpersisted: map<string, L402Token>, url: string, token: L402Token): map<string, L402Token> {
    if url in unpersisted && unpersisted[url] == token then unpersisted - {url} else unpersisted
  }

  function Step(s: State, e: Event): State {
    match e
    case Retain(url, token) =>
      s.(unpersisted := s.unpersisted[url := token], tasks := s.tasks + [Task(url, token, Putting)])
    case PutReturns(i) =>
      if AtPc(s, i, Putting) then SetPc(s, i, Stored).(store := s.store[s.tasks[i].url := s.tasks[i].token]) else s
    case PutFails(i) =>
      if AtPc(s, i, Putting) then SetPc(s, i, Done) else s
    case Confirm(i) =>
      if AtPc(s, i, Stored) then
        SetPc(s, i, Done).(unpersisted := Unretain(s.unpersisted, s.tasks[i].url, s.tasks[i].token))
      else s
    case Abandon(i) =>
      if AtPc(s, i, Stored) then SetPc(s, i, Done) else s
    case Reject(url) =>
      s.(unpersisted := s.unpersisted - {url}, removals := s.removals + [Removal(url, true)])
    case StoreRemoves(k) =>
      if Removing(s, k) then EndRemoval(s, k).(store := s.store - {s.removals[k].url}) else s
    case RemovalFails(k) =>
      if Removing(s, k) then EndRemoval(s, k) else s
  }

  function Exec(events: seq<Event>): State {
    if events == [] then NEW else Step(Exec(events[..|events| - 1]), events[|events| - 1])
  }

  lemma ExecUpTo(events: seq<Event>, n: nat)
    requires n < |events|
    ensures events[..n + 1][..n] == events[..n] && events[..n + 1][n] == events[n]
    ensures Exec(events[..n + 1]) == Step(Exec(events[..n]), events[n])
  {
  }

  // ----- the order of events -------------------------------------------------------

  predicate IsReject(e: Event, url: string) {
    e.Reject? && e.url == url
  }

  predicate IsRetain(e: Event, url: string) {
    e.Retain? && e.url == url
  }

  /** Which puts count as storing the proof: any for the URL, or only those of one token. */
  datatype Which = AnyToken | Only(token: L402Token)

  /** After `before`, the event returns a put for the URL that counts. */
  predicate IsPut(before: seq<Event>, e: Event, url: string, which: Which) {
    && e.PutReturns? && AtPc(Exec(before), e.task, Putting)
    && var t := Exec(before).tasks[e.task];
       t.url == url && (which.AnyToken? || t.token == which.token)
  }

  /** Some token was retained for the URL and none was rejected since. */
  predicate RetainedSince(events: seq<Event>, url: string) {
    if events == [] then false else
    var e, before := events[|events| - 1], events[..|events| - 1];
    if IsReject(e, url) then false
    else if IsRetain(e, url) then true
    else RetainedSince(before, url)
  }

  /** This token was retained for the URL and none was rejected since. */
  predicate StillGood(events: seq<Event>, url: string, t: L402Token) {
    if events == [] then false else
    var e, before := events[|events| - 1], events[..|events| - 1];
    if IsReject(e, url) then false
    else if e == Retain(url, t) then true
    else StillGood(before, url, t)
  }

  /** Some put that counts returned and no token was rejected since. */
  predicate PutSince(events: seq<Event>, url: string, which: Which) {
    if events == [] then false else
    var e, before := events[|events| - 1], events[..|events| - 1];
    if IsReject(e, url) then false
    else if IsPut(before, e, url, which) then true
    else PutSince(before, url, which)
  }

  lemma PutSinceUpTo(events: seq<Event>, n: nat, url: string, which: Which)
    requires n < |events|
    ensures PutSince(events[..n + 1], url, which) ==
            (!IsReject(events[n], url)
             && (IsPut(events[..n], events[n], url, which) || PutSince(events[..n], url, which)))
  {
    ExecUpTo(events, n);
  }

  /** The token retained last for the URL. */
  function Latest(events: seq<Event>, url: string): Option<L402Token> {
    if events == [] then None
    else if IsRetain(events[|events| - 1], url) then Some(events[|events| - 1].token)
    else Latest(events[..|events| - 1], url)
  }

  /** `very`: only a put of the very token that was retained last counts. */
  function Wanted(events: seq<Event>, url: string, very: bool): Which {
    if very && Latest(events, url).Some? then Only(Latest(events, url).value) else AnyToken
  }

  /** A proof taken in since the last rejection is in memory, or a put returned since that rejection. */
  predicate Safe(events: seq<Event>, url: string, very: bool) {
    RetainedSince(events, url) ==>
      url in Exec(events).unpersisted || PutSince(events, url, Wanted(events, url, very))
  }

  ghost predicate AlwaysSafe(events: seq<Event>, very: bool) {
    forall n, url :: 0 <= n <= |events| ==> Safe(events[..n], url, very)
  }

  /**
   * A task's put returns at `p`, a token for its URL is rejected at `q`, the
   * same token is retained again at `r` and is still the last one retained when
   * the task confirms at `n`; and no put that counts returns after `q`.
   */
  ghost predicate OvertakenAt(events: seq<Event>, p: nat, q: nat, r: nat, n: nat, very: bool) {
    && p < q < r < n < |events|
    && events[n].Confirm? && AtPc(Exec(events[..n]), events[n].task, Stored)
    && var t := Exec(events[..n]).tasks[events[n].task];
       var which := if very then Only(t.token) else AnyToken;
       && events[p] == PutReturns(events[n].task) && AtPc(Exec(events[..p]), events[n].task, Putting)
       && events[q] == Reject(t.url)
       && events[r] == Retain(t.url, t.token)
       && (forall k :: r < k < n ==> !IsReject(events[k], t.url) && !IsRetain(events[k], t.url))
       && (forall k :: q < k < n ==> !IsPut(events[..k], events[k], t.url, which))
  }

  ghost predicate Overtaken(events: seq<Event>, very: bool) {
    exists p: nat, q: nat, r: nat, n: nat :: OvertakenAt(events, p, q, r, n, very)
  }

  // ----- what memory and the tasks say about the events -------------------------------

  lemma {:induction false} MemoryShowsLatest(events: seq<Event>, url: string)
    requires url in Exec(events).unpersisted
    ensures RetainedSince(events, url)
    ensures Latest(events, url) == Some(Exec(events).unpersisted[url])
  {
    var e, before := events[|events| - 1], events[..|events| - 1];
    if IsRetain(e, url) {
    } else {
      MemoryShowsLatest(before, url);
    }
  }

  lemma StepKeepsTask(s: State, e: Event, i: nat)
    requires i < |s.tasks|
    ensures var s' := Step(s, e); i < |s'.tasks| && s'.tasks[i] == s.tasks[i].(pc := s'.tasks[i].pc)
  {
  }

  /** What a task is for never changes. */
  lemma {:induction false} TaskKept(events: seq<Event>, m: nat, n: nat, i: nat)
    requires m <= n <= |events| && i < |Exec(events[..m]).tasks|
    ensures i < |Exec(events[..n]).tasks|
    ensures Exec(events[..n]).tasks[i] == Exec(events[..m]).tasks[i].(pc := Exec(events[..n]).tasks[i].pc)
  {
    if m == n {
    } else {
      TaskKept(events, m, n - 1, i);
      ExecUpTo(events, n - 1);
      StepKeepsTask(Exec(events[..n - 1]), events[n - 1], i);
    }
  }

  /** Where something stops being so for the last time. */
  lemma {:induction false} FallsAt(f: nat -> bool, m: nat, n: nat) returns (q: nat)
    requires m <= n && f(m) && !f(n)
    ensures m <= q < n && f(q)
    ensures forall k :: q < k <= n ==> !f(k)
  {
    if f(n - 1) {
      q := n - 1;
    } else {
      q := FallsAt(f, m, n - 1);
    }
  }

  lemma StoredByPut(events: seq<Event>, p: nat, i: nat)
    requires p < |events| && !AtPc(Exec(events[..p]), i, Stored) && AtPc(Exec(events[..p + 1]), i, Stored)
    ensures events[p] == PutReturns(i) && AtPc(Exec(events[..p]), i, Putting)
  {
    ExecUpTo(events, p);
  }

  /** A task that waits to confirm has had its put. */
  lemma StoredHadPut(events: seq<Event>, n: nat, i: nat) returns (p: nat)
    requires n <= |events| && AtPc(Exec(events[..n]), i, Stored)
    ensures p < n && events[p] == PutReturns(i) && AtPc(Exec(events[..p]), i, Putting)
  {
    var f := (k: nat) => k <= |events| && !AtPc(Exec(events[..k]), i, Stored);
    assert events[..0] == [];
    p := FallsAt(f, 0, n);
    assert !f(p + 1);
    StoredByPut(events, p, i);
  }

  lemma NewTask(s: State, e: Event, i: nat)
    requires |s.tasks| <= i < |Step(s, e).tasks|
    ensures e.Retain? && Step(s, e).tasks[i] == Task(e.url, e.token, Putting)
  {
  }

  /** A task began by retaining its token. */
  lemma {:induction false} TaskRetained(events: seq<Event>, n: nat, i: nat) returns (r: nat)
    requires n <= |events| && i < |Exec(events[..n]).tasks|
    ensures r < n
    ensures var t := Exec(events[..n]).tasks[i]; events[r] == Retain(t.url, t.token)
  {
    assert n > 0;
    ExecUpTo(events, n - 1);
    var s, e := Exec(events[..n - 1]), events[n - 1];
    if i < |s.tasks| {
      StepKeepsTask(s, e, i);
      r := TaskRetained(events, n - 1, i);
    } else {
      NewTask(s, e, i);
      r := n - 1;
    }
  }

  /** The last retaining of a token, and nothing of the kind since. */
  lemma {:induction false} LastRetain(events: seq<Event>, n: nat, url: string) returns (r: nat)
    requires n <= |events| && RetainedSince(events[..n], url)
    ensures r < n && Latest(events[..n], url).Some? && events[r] == Retain(url, Latest(events[..n], url).value)
    ensures forall k :: r < k < n ==> !IsReject(events[k], url) && !IsRetain(events[k], url)
  {
    assert n > 0;
    ExecUpTo(events, n - 1);
    if IsRetain(events[n - 1], url) {
      r := n - 1;
    } else {
      r := LastRetain(events, n - 1, url);
    }
  }

  /** A put that no longer counts was followed by a rejection, and by no other put since. */
  lemma {:induction false} LastReject(events: seq<Event>, n: nat, p: nat, url: string, which: Which) returns (q: nat)
    requires p < n <= |events| && !PutSince(events[..n], url, which) && IsPut(events[..p], events[p], url, which)
    ensures p < q < n && events[q] == Reject(url)
    ensures forall k :: q < k < n ==> !IsPut(events[..k], events[k], url, which)
  {
    PutSinceUpTo(events, n - 1, url, which);
    if IsReject(events[n - 1], url) {
      q := n - 1;
    } else {
      assert p != n - 1;
      q := LastReject(events, n - 1, p, url, which);
    }
  }

  lemma {:induction false} StillRetained(events: seq<Event>, r: nat, n: nat, url: string)
    requires r < n <= |events| && IsRetain(events[r], url)
    requires forall k :: r < k < n ==> !IsReject(events[k], url) && !IsRetain(events[k], url)
    ensures RetainedSince(events[..n], url) && Latest(events[..n], url) == Some(events[r].token)
  {
    ExecUpTo(events, n - 1);
    if r == n - 1 {
    } else {
      StillRetained(events, r, n - 1, url);
    }
  }

  lemma {:induction false} NoPutSince(events: seq<Event>, q: nat, n: nat, url: string, which: Which)
    requires q < n <= |events| && events[q] == Reject(url)
    requires forall k :: q < k < n ==> !IsPut(events[..k], events[k], url, which)
    ensures !PutSince(events[..n], url, which)
  {
    PutSinceUpTo(events, n - 1, url, which);
    if q == n - 1 {
    } else {
      NoPutSince(events, q, n - 1, url, which);
    }
  }

  // ----- what holds in every order of events ----------------------------------------------

  /** A put of the very token that was retained last has returned at some point. */
  ghost predicate PutEver(events: seq<Event>, n: nat, url: string)
    requires n <= |events|
  {
    Latest(events[..n], url).Some? &&
    exists p :: 0 <= p < n && IsPut(events[..p], events[p], url, Only(Latest(events[..n], url).value))
  }

  /**
   * In every order of events, a proof taken in since the last rejection is in
   * memory unless a put of that very token has returned, before that rejection
   * or after it.
   */
  lemma {:induction false} ProofIsNeverDropped(events: seq<Event>, n: nat, url: string)
    requires n <= |events| && RetainedSince(events[..n], url)
    ensures url in Exec(events[..n]).unpersisted || PutEver(events, n, url)
  {
    if url !in Exec(events[..n]).unpersisted {
      var r := LastRetain(events, n, url);
      ExecUpTo(events, r);
      var c := DroppedBy(events, r + 1, n, url);
      StillRetained(events, r, c, url);
      MemoryShowsLatest(events[..c], url);
      var p := StoredHadPut(events, c, events[c].task);
      TaskKept(events, p, c, events[c].task);
      assert IsPut(events[..p], events[p], url, Only(Latest(events[..n], url).value));
    }
  }

  // ----- when a proof is dropped too early -----------------------------------------------

  /** What makes a URL unsafe: a confirmation drops its token, and no put since the last rejection returned. */
  predicate DropsUnsafely(before: seq<Event>, e: Event, url: string, very: bool) {
    && e.Confirm? && AtPc(Exec(before), e.task, Stored)
    && var t := Exec(before).tasks[e.task];
       && t.url == url && url in Exec(before).unpersisted && Exec(before).unpersisted[url] == t.token
       && !PutSince(before, url, if very then Only(t.token) else AnyToken)
  }

  lemma UnsafeStep(events: seq<Event>, n: nat, url: string, very: bool)
    requires n < |events| && Safe(events[..n], url, very) && !Safe(events[..n + 1], url, very)
    ensures DropsUnsafely(events[..n], events[n], url, very)
  {
    var before, e := events[..n], events[n];
    ExecUpTo(events, n);
    assert RetainedSince(before, url) && Latest(events[..n + 1], url) == Latest(before, url);
    assert url in Exec(before).unpersisted;
    MemoryShowsLatest(before, url);
  }

  lemma DropIsOvertaken(events: seq<Event>, n: nat, url: string, very: bool)
    requires n < |events| && DropsUnsafely(events[..n], events[n], url, very)
    ensures Overtaken(events, very)
  {
    var i := events[n].task;
    var t := Exec(events[..n]).tasks[i];
    var which := if very then Only(t.token) else AnyToken;
    var p := StoredHadPut(events, n, i);
    TaskKept(events, p, n, i);
    var q := LastReject(events, n, p, url, which);
    MemoryShowsLatest(events[..n], url);
    var r := LastRetain(events, n, url);
    assert q != r && !(r < q < n);
    assert OvertakenAt(events, p, q, r, n, very);
  }

  lemma OvertakenIsUnsafe(events: seq<Event>, p: nat, q: nat, r: nat, n: nat, very: bool)
    requires OvertakenAt(events, p, q, r, n, very)
    ensures !AlwaysSafe(events, very)
  {
    var t := Exec(events[..n]).tasks[events[n].task];
    StillRetained(events, r, n, t.url);
    StillRetained(events, r, n + 1, t.url);
    NoPutSince(events, q, n + 1, t.url, if very then Only(t.token) else AnyToken);
    ExecUpTo(events, n);
    if t.url in Exec(events[..n]).unpersisted {
      MemoryShowsLatest(events[..n], t.url);
    }
    assert !Safe(events[..n + 1], t.url, very);
  }

  lemma {:induction false} SafeUpTo(events: seq<Event>, n: nat, url: string, very: bool)
    requires n <= |events| && !Overtaken(events, very)
    ensures Safe(events[..n], url, very)
  {
    if n == 0 {
    } else {
      SafeUpTo(events, n - 1, url, very);
      if !Safe(events[..n], url, very) {
        UnsafeStep(events, n - 1, url, very);
        DropIsOvertaken(events, n - 1, url, very);
      }
    }
  }

  /**
   * Proof of payment is never dropped by storage, except in one order of events:
   * throughout a run, from the moment a token for a URL is taken in until the
   * server rejects one, memory has it or a put for the URL returned (`very`: a
   * put of that very token), if and only if no task is overtaken by a rejection
   * and a second retaining of its token between its put and its confirmation.
   */
  lemma SafeIffNotOvertaken(events: seq<Event>, very: bool)
    ensures AlwaysSafe(events, very) <==> !Overtaken(events, very)
  {
    if Overtaken(events, very) {
      var p: nat, q: nat, r: nat, n: nat :| OvertakenAt(events, p, q, r, n, very);
      OvertakenIsUnsafe(events, p, q, r, n, very);
    } else {
      forall n, url | 0 <= n <= |events| ensures Safe(events[..n], url, very) {
        SafeUpTo(events, n, url, very);
      }
    }
  }

  // ----- two conditions a caller can see to ---------------------------------------------------

  /** Every token for a URL is a new one. */
  predicate TokensAreFresh(events: seq<Event>) {
    forall i, j :: 0 <= i < j < |events| && events[i].Retain? && events[j].Retain? ==> events[i] != events[j]
  }

  /** If a server never issues the same token twice for a URL, no proof is dropped too early. */
  lemma FreshTokensAreSafe(events: seq<Event>, very: bool)
    requires TokensAreFresh(events)
    ensures AlwaysSafe(events, very)
  {
    if Overtaken(events, very) {
      var p: nat, q: nat, r: nat, n: nat :| OvertakenAt(events, p, q, r, n, very);
      var first := TaskRetained(events, p, events[n].task);
      TaskKept(events, p, n, events[n].task);
      assert false;
    }
    SafeIffNotOvertaken(events, very);
  }

  /** A task for the URL is still between retaining its token and confirming it. */
  predicate Unfinished(s: State, i: int, url: string) {
    0 <= i < |s.tasks| && s.tasks[i].url == url && !s.tasks[i].pc.Done?
  }

  predicate UnderRemoval(s: State, k: int, url: string) {
    0 <= k < |s.removals| && s.removals[k].url == url && s.removals[k].pending
  }

  /** No rejection while a task for the URL is unfinished, and no new token while the store is asked to remove one. */
  ghost predicate MayHappen(s: State, e: Event) {
    match e
    case Retain(url, _) => forall k :: !UnderRemoval(s, k, url)
    case Reject(url) => forall i :: !Unfinished(s, i, url)
    case _ => true
  }

  /** Requests for one URL take turns. */
  ghost predicate TakeTurns(events: seq<Event>) {
    forall n :: 0 <= n < |events| ==> MayHappen(Exec(events[..n]), events[n])
  }

  function StoreOf(s: State, url: string): Option<L402Token> {
    if url in s.store then Some(s.store[url]) else None
  }

  /** The store has a token for the URL that was taken in since the last rejection. */
  predicate StoreIsGood(events: seq<Event>, url: string) {
    var t := StoreOf(Exec(events), url);
    t.Some? && StillGood(events, url, t.value)
  }

  /**
   * Memory or the store has a proof that was taken in since the last rejection,
   * if any was. (What memory has always was, by `MemoryShowsLatest`.)
   */
  predicate Held(events: seq<Event>, url: string) {
    RetainedSince(events, url) ==> url in Exec(events).unpersisted || StoreIsGood(events, url)
  }

  /** No token of an unfinished task was rejected, and one that waits to confirm has left a good one in the store. */
  ghost predicate TasksAreGood(events: seq<Event>, url: string) {
    var s := Exec(events);
    forall i :: Unfinished(s, i, url) ==>
      StillGood(events, url, s.tasks[i].token) && (s.tasks[i].pc.Stored? ==> StoreIsGood(events, url))
  }

  /** While the store is asked to remove a token, no task works on the URL and nothing is retained for it. */
  ghost predicate RemovalsAlone(events: seq<Event>, url: string) {
    var s := Exec(events);
    forall k :: UnderRemoval(s, k, url) ==> !RetainedSince(events, url) && forall i :: !Unfinished(s, i, url)
  }

  ghost predicate TurnsInv(events: seq<Event>, url: string) {
    Held(events, url) && TasksAreGood(events, url) && RemovalsAlone(events, url)
  }

  lemma StaysGood(events: seq<Event>, n: nat, url: string, t: L402Token)
    requires n < |events| && !IsReject(events[n], url)
    ensures StillGood(events[..n], url, t) ==> StillGood(events[..n + 1], url, t)
    ensures events[n] == Retain(url, t) ==> StillGood(events[..n + 1], url, t)
  {
    ExecUpTo(events, n);
  }

  /** A good store stays good, unless a token is rejected or removed or an unfinished task's put is not good. */
  lemma StoreStaysGood(events: seq<Event>, n: nat, url: string)
    requires n < |events| && !IsReject(events[n], url) && !IsRemoval(events[..n], events[n], url)
    requires TasksAreGood(events[..n], url)
    requires StoreIsGood(events[..n], url) || IsPut(events[..n], events[n], url, AnyToken)
    ensures StoreIsGood(events[..n + 1], url)
  {
    var s, e := Exec(events[..n]), events[n];
    ExecUpTo(events, n);
    StoreStep(events[..n], e, url);
    if IsPut(events[..n], e, url, AnyToken) {
      assert Unfinished(s, e.task, url);
      StaysGood(events, n, url, s.tasks[e.task].token);
    } else {
      StaysGood(events, n, url, s.store[url]);
    }
  }

  lemma RemovalMeetsNobody(events: seq<Event>, n: nat, url: string)
    requires n < |events| && RemovalsAlone(events[..n], url)
    ensures IsRemoval(events[..n], events[n], url) ==>
              !RetainedSince(events[..n], url) && forall i :: !Unfinished(Exec(events[..n]), i, url)
  {
    if IsRemoval(events[..n], events[n], url) {
      assert UnderRemoval(Exec(events[..n]), events[n].removal, url);
    }
  }

  lemma TurnsKeepTasks(events: seq<Event>, n: nat, url: string)
    requires n < |events| && TurnsInv(events[..n], url) && MayHappen(Exec(events[..n]), events[n])
    ensures TasksAreGood(events[..n + 1], url)
  {
    ExecUpTo(events, n);
    var s, s', e := Exec(events[..n]), Exec(events[..n + 1]), events[n];
    forall i | Unfinished(s', i, url)
      ensures StillGood(events[..n + 1], url, s'.tasks[i].token)
      ensures s'.tasks[i].pc.Stored? ==> StoreIsGood(events[..n + 1], url)
    {
      assert e != Reject(url) && (Unfinished(s, i, url) || e == Retain(url, s'.tasks[i].token));
      StaysGood(events, n, url, s'.tasks[i].token);
      if s'.tasks[i].pc.Stored? {
        RemovalMeetsNobody(events, n, url);
        StoreStaysGood(events, n, url);
      }
    }
  }

  lemma TurnsKeepAlone(events: seq<Event>, n: nat, url: string)
    requires n < |events| && TurnsInv(events[..n], url) && MayHappen(Exec(events[..n]), events[n])
    ensures RemovalsAlone(events[..n + 1], url)
  {
    ExecUpTo(events, n);
    var s, s', e := Exec(events[..n]), Exec(events[..n + 1]), events[n];
    forall k | UnderRemoval(s', k, url)
      ensures !RetainedSince(events[..n + 1], url) && forall i :: !Unfinished(s', i, url)
    {
      assert UnderRemoval(s, k, url) || e == Reject(url);
      forall i ensures !Unfinished(s', i, url) {
        assert !Unfinished(s, i, url);
      }
    }
  }

  lemma TurnsKeepHeld(events: seq<Event>, n: nat, url: string)
    requires n < |events| && TurnsInv(events[..n], url)
    ensures Held(events[..n + 1], url)
  {
    ExecUpTo(events, n);
    var s, e := Exec(events[..n]), events[n];
    if RetainedSince(events[..n + 1], url) && url !in Exec(events[..n + 1]).unpersisted {
      MemoryStep(s, e, url);
      if url in s.unpersisted {
        assert Unfinished(s, e.task, url);
      }
      RemovalMeetsNobody(events, n, url);
      StoreStaysGood(events, n, url);
    }
  }

  lemma {:induction false} TurnsUpTo(events: seq<Event>, n: nat, url: string)
    requires n <= |events| && TakeTurns(events)
    ensures TurnsInv(events[..n], url)
  {
    if n == 0 {
    } else {
      TurnsUpTo(events, n - 1, url);
      TurnsKeepHeld(events, n - 1, url);
      TurnsKeepTasks(events, n - 1, url);
      TurnsKeepAlone(events, n - 1, url);
    }
  }

  /**
   * If requests for a URL take turns, memory or the store has a proof that was
   * taken in since the last rejection, at every point, if any was.
   */
  lemma TurnsKeepTheProof(events: seq<Event>, n: nat, url: string)
    requires TakeTurns(events) && n <= |events|
    ensures Held(events[..n], url)
  {
    TurnsUpTo(events, n, url);
  }

  // ----- exactly when the proof is nowhere -----------------------------------------------------

  /** After `before`, the event makes the store remove what it has for the URL. */
  predicate IsRemoval(before: seq<Event>, e: Event, url: string) {
    && e.StoreRemoves? && Removing(Exec(before), e.removal)
    && Exec(before).removals[e.removal].url == url
  }

  /** The event returns the put of a token for the URL that, seen from `n`, is still good. */
  predicate PutsGood(events: seq<Event>, k: nat, n: nat, url: string)
    requires k < n <= |events|
  {
    && IsPut(events[..k], events[k], url, AnyToken)
    && StillGood(events[..n], url, Exec(events[..k]).tasks[events[k].task].token)
  }

  /** The event empties the store, or overwrites what it has with a token that, seen from `n`, has been rejected. */
  predicate SpoilsStore(events: seq<Event>, q: nat, n: nat, url: string)
    requires q < n <= |events|
  {
    || IsRemoval(events[..q], events[q], url)
    || (IsPut(events[..q], events[q], url, AnyToken) && !PutsGood(events, q, n, url))
  }

  /**
   * A token for the URL is retained at `r`, the last one and with no rejection
   * since, and a task that stored this token confirms at `c`.
   */
  ghost predicate DroppedAt(events: seq<Event>, r: nat, c: nat, n: nat, url: string) {
    && r < c < n <= |events|
    && IsRetain(events[r], url)
    && (forall k :: r < k < n ==> !IsReject(events[k], url) && !IsRetain(events[k], url))
    && events[c].Confirm? && AtPc(Exec(events[..c]), events[c].task, Stored)
    && Exec(events[..c]).tasks[events[c].task] == Task(url, events[r].token, Stored)
  }

  /**
   * The store removes what it has at `q`, or has it overwritten there by the late
   * put of a token that was rejected; and no put of a token that is still good
   * returns after `q`.
   */
  ghost predicate SpoiledAt(events: seq<Event>, q: nat, n: nat, url: string) {
    && q < n <= |events|
    && SpoilsStore(events, q, n, url)
    && (forall k :: q < k < n ==> !PutsGood(events, k, n, url))
  }

  ghost predicate LostAt(events: seq<Event>, r: nat, c: nat, q: nat, n: nat, url: string) {
    DroppedAt(events, r, c, n, url) && SpoiledAt(events, q, n, url)
  }

  lemma MemoryStep(s: State, e: Event, url: string)
    ensures var s' := Step(s, e);
            && (url in s'.unpersisted && url !in s.unpersisted ==> IsRetain(e, url))
            && (url in s.unpersisted && url !in s'.unpersisted ==>
                  || IsReject(e, url)
                  || (e.Confirm? && AtPc(s, e.task, Stored)
                      && s.tasks[e.task] == Task(url, s.unpersisted[url], Stored)))
  {
  }

  /** The store changes for a URL only by a put or a removal. */
  lemma StoreStep(before: seq<Event>, e: Event, url: string)
    ensures StoreOf(Step(Exec(before), e), url) ==
            if IsPut(before, e, url, AnyToken) then Some(Exec(before).tasks[e.task].token)
            else if IsRemoval(before, e, url) then None
            else StoreOf(Exec(before), url)
  {
  }

  lemma {:induction false} StaysOut(events: seq<Event>, m: nat, n: nat, url: string)
    requires m <= n <= |events| && url !in Exec(events[..m]).unpersisted
    requires forall k :: m <= k < n ==> !IsRetain(events[k], url)
    ensures url !in Exec(events[..n]).unpersisted
  {
    if m == n {
    } else {
      StaysOut(events, m, n - 1, url);
      ExecUpTo(events, n - 1);
      MemoryStep(Exec(events[..n - 1]), events[n - 1], url);
    }
  }

  /** What the store had after `k` events is, seen from `n`, still good. */
  predicate GoodFrom(events: seq<Event>, k: nat, n: nat, url: string)
    requires k <= |events| && n <= |events|
  {
    var t := StoreOf(Exec(events[..k]), url);
    t.Some? && StillGood(events[..n], url, t.value)
  }

  /** What one event does to that. */
  lemma GoodStep(events: seq<Event>, k: nat, n: nat, url: string)
    requires k < n <= |events|
    ensures PutsGood(events, k, n, url) ==> GoodFrom(events, k + 1, n, url)
    ensures SpoilsStore(events, k, n, url) ==> !GoodFrom(events, k + 1, n, url)
    ensures GoodFrom(events, k, n, url) && !GoodFrom(events, k + 1, n, url) ==> SpoilsStore(events, k, n, url)
    ensures !GoodFrom(events, k, n, url) && GoodFrom(events, k + 1, n, url) ==> PutsGood(events, k, n, url)
  {
    ExecUpTo(events, k);
    StoreStep(events[..k], events[k], url);
  }

  lemma StaysSpoiled(events: seq<Event>, q: nat, n: nat, url: string)
    requires SpoiledAt(events, q, n, url)
    ensures !StoreIsGood(events[..n], url)
  {
    GoodStep(events, q, n, url);
    if GoodFrom(events, n, n, url) {
      var f := (k: nat) => k <= |events| && !GoodFrom(events, k, n, url);
      var k := FallsAt(f, q + 1, n);
      assert !f(k + 1);
      GoodStep(events, k, n, url);
      assert false;
    }
  }

  lemma NothingGoodPut(events: seq<Event>, k: nat, n: nat, url: string)
    requires k < n <= |events| && !GoodFrom(events, k + 1, n, url)
    ensures !PutsGood(events, k, n, url)
  {
    GoodStep(events, k, n, url);
  }

  /** Where a good store is good for the last time. */
  lemma GoodUntil(events: seq<Event>, m: nat, n: nat, url: string) returns (q: nat)
    requires m <= n <= |events| && GoodFrom(events, m, n, url) && !GoodFrom(events, n, n, url)
    ensures m <= q < n && GoodFrom(events, q, n, url)
    ensures forall k :: q < k <= n ==> !GoodFrom(events, k, n, url)
  {
    var f := (k: nat) => k <= |events| && GoodFrom(events, k, n, url);
    q := FallsAt(f, m, n);
    forall k | q < k <= n ensures !GoodFrom(events, k, n, url) {
      assert !f(k);
    }
  }

  /** A good store that is good no more was spoiled, and nothing good was put since. */
  lemma SpoiledBy(events: seq<Event>, m: nat, n: nat, url: string) returns (q: nat)
    requires m <= n <= |events| && GoodFrom(events, m, n, url) && !GoodFrom(events, n, n, url)
    ensures m <= q && SpoiledAt(events, q, n, url)
  {
    q := GoodUntil(events, m, n, url);
    GoodStep(events, q, n, url);
    forall k | q < k < n ensures !PutsGood(events, k, n, url) {
      NothingGoodPut(events, k, n, url);
    }
  }

  /** Where a URL leaves memory for the last time. */
  lemma LeavesAt(events: seq<Event>, m: nat, n: nat, url: string) returns (c: nat)
    requires m <= n <= |events|
    requires url in Exec(events[..m]).unpersisted && url !in Exec(events[..n]).unpersisted
    ensures m <= c < n && url in Exec(events[..c]).unpersisted && url !in Exec(events[..c + 1]).unpersisted
  {
    var f := (k: nat) => k <= |events| && url in Exec(events[..k]).unpersisted;
    c := FallsAt(f, m, n);
    assert !f(c + 1);
  }

  lemma DropAt(events: seq<Event>, c: nat, url: string)
    requires c < |events| && !IsReject(events[c], url)
    requires url in Exec(events[..c]).unpersisted && url !in Exec(events[..c + 1]).unpersisted
    ensures events[c].Confirm? && AtPc(Exec(events[..c]), events[c].task, Stored)
    ensures Exec(events[..c]).tasks[events[c].task] == Task(url, Exec(events[..c]).unpersisted[url], Stored)
  {
    ExecUpTo(events, c);
    MemoryStep(Exec(events[..c]), events[c], url);
  }

  /** What leaves memory without a rejection was dropped by the task that stored it. */
  lemma DroppedBy(events: seq<Event>, m: nat, n: nat, url: string) returns (c: nat)
    requires m <= n <= |events|
    requires url in Exec(events[..m]).unpersisted && url !in Exec(events[..n]).unpersisted
    requires forall k :: m <= k < n ==> !IsReject(events[k], url)
    ensures m <= c < n && events[c].Confirm? && url in Exec(events[..c]).unpersisted
    ensures AtPc(Exec(events[..c]), events[c].task, Stored)
    ensures Exec(events[..c]).tasks[events[c].task] == Task(url, Exec(events[..c]).unpersisted[url], Stored)
  {
    c := LeavesAt(events, m, n, url);
    DropAt(events, c, url);
  }

  /** The token retained last is out of memory once its task has confirmed. */
  lemma ConfirmDrops(events: seq<Event>, r: nat, c: nat, url: string)
    requires r < c < |events| && IsRetain(events[r], url)
    requires forall k :: r < k < c ==> !IsReject(events[k], url) && !IsRetain(events[k], url)
    requires events[c].Confirm? && AtPc(Exec(events[..c]), events[c].task, Stored)
    requires Exec(events[..c]).tasks[events[c].task] == Task(url, events[r].token, Stored)
    ensures url !in Exec(events[..c + 1]).unpersisted
  {
    ExecUpTo(events, c);
    StillRetained(events, r, c, url);
    if url in Exec(events[..c]).unpersisted {
      MemoryShowsLatest(events[..c], url);
    }
  }

  lemma DroppedIsOut(events: seq<Event>, r: nat, c: nat, n: nat, url: string)
    requires DroppedAt(events, r, c, n, url)
    ensures RetainedSince(events[..n], url) && url !in Exec(events[..n]).unpersisted
  {
    StillRetained(events, r, n, url);
    ConfirmDrops(events, r, c, url);
    StaysOut(events, c + 1, n, url);
  }

  lemma LostIsNotHeld(events: seq<Event>, r: nat, c: nat, q: nat, n: nat, url: string)
    requires LostAt(events, r, c, q, n, url)
    ensures !Held(events[..n], url)
  {
    DroppedIsOut(events, r, c, n, url);
    StaysSpoiled(events, q, n, url);
  }

  lemma {:induction false} RetainIsGood(events: seq<Event>, r: nat, n: nat, url: string)
    requires r < n <= |events| && IsRetain(events[r], url)
    requires forall k :: r < k < n ==> !IsReject(events[k], url)
    ensures StillGood(events[..n], url, events[r].token)
  {
    ExecUpTo(events, n - 1);
    if r == n - 1 {
    } else {
      RetainIsGood(events, r, n - 1, url);
    }
  }

  lemma NotHeldIsLost(events: seq<Event>, n: nat, url: string) returns (r: nat, c: nat, q: nat)
    requires n <= |events| && !Held(events[..n], url)
    ensures LostAt(events, r, c, q, n, url)
  {
    r := LastRetain(events, n, url);
    ExecUpTo(events, r);
    c := DroppedBy(events, r + 1, n, url);
    StillRetained(events, r, c, url);
    MemoryShowsLatest(events[..c], url);
    var p := StoredHadPut(events, c, events[c].task);
    TaskKept(events, p, c, events[c].task);
    RetainIsGood(events, r, n, url);
    GoodStep(events, p, n, url);
    q := SpoiledBy(events, p + 1, n, url);
  }

  /**
   * At any point of any run, memory or the store has a proof that was taken in
   * since the last rejection, if any was, if and only if there is no such order
   * of events: the task that stored the last one confirmed; the store removed
   * what it had, or had it overwritten by the late put of a rejected token; and
   * nothing that is still good was put since.
   */
  lemma HeldIffNotLost(events: seq<Event>, n: nat, url: string)
    requires n <= |events|
    ensures Held(events[..n], url) <==> !exists r: nat, c: nat, q: nat :: LostAt(events, r, c, q, n, url)
  {
    if r: nat, c: nat, q: nat :| LostAt(events, r, c, q, n, url) {
      LostIsNotHeld(events, r, c, q, n, url);
    } else if !Held(events[..n], url) {
      var r, c, q := NotHeldIsLost(events, n, url);
    }
  }

  // ----- all three do happen ----------------------------------------------------------------------

  lemma ExecAppend(before: seq<Event>, e: Event)
    ensures Exec(before + [e]) == Step(Exec(before), e)
  {
    assert (before + [e])[..|before|] == before;
  }

  lemma ExecThree(before: seq<Event>, e1: Event, e2: Event, e3: Event)
    ensures Exec(before + [e1] + [e2] + [e3]) == Step(Step(Step(Exec(before), e1), e2), e3)
  {
    ExecAppend(before, e1);
    ExecAppend(before + [e1], e2);
    ExecAppend(before + [e1] + [e2], e3);
  }

  /** Retain, put, be rejected, retain the same again, and only then confirm. */
  function StaleRun(url: string, t: L402Token): seq<Event> {
    [] + [Retain(url, t)] + [PutReturns(0)] + [Reject(url)] + [StoreRemoves(0)] + [Retain(url, t)] + [Confirm(0)]
  }

  lemma StaleRunBegins(url: string, t: L402Token)
    ensures Exec([] + [Retain(url, t)] + [PutReturns(0)] + [Reject(url)])
         == State(map[], map[url := t], [Task(url, t, Stored)], [Removal(url, true)])
  {
    ExecThree([], Retain(url, t), PutReturns(0), Reject(url));
    assert map[url := t] - {url} == map[];
  }

  lemma StaleRunEnds(url: string, t: L402Token)
    ensures var s := Exec(StaleRun(url, t)); url !in s.unpersisted && url !in s.store
  {
    StaleRunBegins(url, t);
    ExecThree([] + [Retain(url, t)] + [PutReturns(0)] + [Reject(url)], StoreRemoves(0), Retain(url, t), Confirm(0));
  }

  /** For every URL and token, an overtaken confirmation leaves the proof nowhere. */
  lemma StaleDropHappens(url: string, t: L402Token)
    ensures !Held(StaleRun(url, t), url) && !AlwaysSafe(StaleRun(url, t), false)
  {
    var events := StaleRun(url, t);
    StaleRunEnds(url, t);
    StillRetained(events, 4, 6, url);
    assert events[..6] == events;
    forall k | 2 < k < 6 ensures !IsPut(events[..k], events[k], url, AnyToken) {
      assert !events[k].PutReturns?;
    }
    NoPutSince(events, 2, 6, url, AnyToken);
    assert !Safe(events[..6], url, false);
  }

  /** A second task's put returns between the two halves of a rejection. */
  function LateRemovalRun(url: string, t: L402Token): seq<Event> {
    [] + [Reject(url)] + [Retain(url, t)] + [PutReturns(0)] + [Confirm(0)] + [StoreRemoves(0)]
  }

  lemma LateRemovalBegins(url: string, t: L402Token)
    ensures Exec([] + [Reject(url)] + [Retain(url, t)] + [PutReturns(0)])
         == State(map[url := t], map[url := t], [Task(url, t, Stored)], [Removal(url, true)])
  {
    ExecThree([], Reject(url), Retain(url, t), PutReturns(0));
  }

  lemma LateRemovalEnds(url: string, t: L402Token)
    ensures var s := Exec(LateRemovalRun(url, t)); url !in s.unpersisted && url !in s.store
  {
    var first := [] + [Reject(url)] + [Retain(url, t)] + [PutReturns(0)];
    LateRemovalBegins(url, t);
    ExecAppend(first, Confirm(0));
    ExecAppend(first + [Confirm(0)], StoreRemoves(0));
  }

  /** For every URL and token, a removal that lands after another task's put leaves its proof nowhere. */
  lemma LateRemovalHappens(url: string, t: L402Token)
    ensures !Held(LateRemovalRun(url, t), url) && TokensAreFresh(LateRemovalRun(url, t))
  {
    var events := LateRemovalRun(url, t);
    LateRemovalEnds(url, t);
    StillRetained(events, 1, 5, url);
    assert events[..5] == events;
  }

  /** A slow put of a token returns after the token was rejected and another one was retained, stored and confirmed. */
  function LatePutRun(url: string, a: L402Token, b: L402Token): seq<Event> {
    [] + [Retain(url, a)] + [Reject(url)] + [Retain(url, b)] + [PutReturns(1)] + [Confirm(1)] + [PutReturns(0)]
  }

  lemma LatePutBegins(url: string, a: L402Token, b: L402Token)
    ensures Exec([] + [Retain(url, a)] + [Reject(url)] + [Retain(url, b)])
         == State(map[url := b], map[], [Task(url, a, Putting), Task(url, b, Putting)], [Removal(url, true)])
  {
    ExecThree([], Retain(url, a), Reject(url), Retain(url, b));
  }

  lemma LatePutEnds(url: string, a: L402Token, b: L402Token)
    ensures var s := Exec(LatePutRun(url, a, b)); url !in s.unpersisted && StoreOf(s, url) == Some(a)
  {
    LatePutBegins(url, a, b);
    ExecThree([] + [Retain(url, a)] + [Reject(url)] + [Retain(url, b)], PutReturns(1), Confirm(1), PutReturns(0));
  }

  lemma {:induction false} NotGoodSince(events: seq<Event>, q: nat, n: nat, url: string, t: L402Token)
    requires q < n <= |events| && IsReject(events[q], url)
    requires forall k :: q < k < n ==> events[k] != Retain(url, t)
    ensures !StillGood(events[..n], url, t)
  {
    ExecUpTo(events, n - 1);
    if q == n - 1 {
    } else {
      NotGoodSince(events, q, n - 1, url, t);
    }
  }

  /**
   * For every URL and any two tokens, the late put of the rejected one
   * overwrites the other, which is then nowhere, although it is the only proof.
   */
  lemma LatePutHappens(url: string, a: L402Token, b: L402Token)
    requires a != b
    ensures !Held(LatePutRun(url, a, b), url) && TokensAreFresh(LatePutRun(url, a, b))
  {
    var events := LatePutRun(url, a, b);
    LatePutEnds(url, a, b);
    StillRetained(events, 2, 6, url);
    NotGoodSince(events, 1, 6, url, a);
    assert events[..6] == events;
  }
}
