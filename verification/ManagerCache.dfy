/** The cache of resource managers in pkg/resource/capacity_provider/manager_factory.go.

    ManagerFor looks its key up under a read lock and, on a miss, builds and stores a manager
    under the write lock without looking again. The calls of any number of goroutines are
    interleaved here in atomic steps; the laws are about every interleaving. */
module ManagerCache {
  import opened ApiTypes

  datatype Request = Request(account: string, region: string, role: string)

  /** fmt.Sprintf("%s/%s/%s", id, region, roleARN). */
  function Key(q: Request): string {
    q.account + "/" + q.region + "/" + q.role
  }

  /** A manager; the serial number tells two managers apart. */
  datatype Manager = Manager(account: string, region: string, serial: nat)

  // ---- the key ----

  predicate NoSlash(s: string) {
    '/' !in s
  }

  predicate Clean(q: Request) {
    NoSlash(q.account) && NoSlash(q.region)
  }

  lemma LongerHasSlash(a: string, x: string, b: string, y: string)
    requires a + "/" + x == b + "/" + y && |a| < |b|
    ensures !NoSlash(b)
  {
    assert b[|a|] == (b + "/" + y)[|a|] == (a + "/" + x)[|a|] == '/';
  }

  lemma SplitAtFirstSlash(a: string, x: string, b: string, y: string)
    requires NoSlash(a) && NoSlash(b)
    requires a + "/" + x == b + "/" + y
    ensures a == b && x == y
  {
    if |a| < |b| {
      LongerHasSlash(a, x, b, y);
    } else if |b| < |a| {
      LongerHasSlash(b, y, a, x);
    } else {
      assert a == (a + "/" + x)[..|a|] == (b + "/" + y)[..|b|] == b;
      assert x == (a + "/" + x)[|a| + 1..] == (b + "/" + y)[|b| + 1..] == y;
    }
  }

  /** Without a slash in account and region the key tells requests apart. */
  lemma KeyIsInjective(p: Request, q: Request)
    requires Clean(p) && Clean(q)
    ensures Key(p) == Key(q) <==> p == q
  {
    if Key(p) == Key(q) {
      assert Key(p) == p.account + "/" + (p.region + "/" + p.role);
      assert Key(q) == q.account + "/" + (q.region + "/" + q.role);
      SplitAtFirstSlash(p.account, p.region + "/" + p.role, q.account, q.region + "/" + q.role);
      SplitAtFirstSlash(p.region, p.role, q.region, q.role);
    }
  }

  /** With a slash in one of them there is another account or region with the same key. */
  lemma UncleanCollides(q: Request) returns (p: Request)
    requires !Clean(q)
    ensures Key(p) == Key(q) && p.account != q.account && p.region != q.region
  {
    if !NoSlash(q.account) {
      var i :| 0 <= i < |q.account| && q.account[i] == '/';
      p := Request(q.account[..i], q.account[i + 1..] + "/" + q.region, q.role);
      assert q.account == q.account[..i] + "/" + q.account[i + 1..];
      assert |p.account| < |q.account| && |p.region| > |q.region|;
      assert p.account + "/" + p.region == q.account + "/" + q.region;
    } else {
      var i :| 0 <= i < |q.region| && q.region[i] == '/';
      p := Request(q.account + "/" + q.region[..i], q.region[i + 1..], q.role);
      assert q.region == q.region[..i] + "/" + q.region[i + 1..];
      assert |p.account| > |q.account| && |p.region| < |q.region|;
      assert p.account + "/" + p.region == q.account + "/" + q.region;
    }
  }

  predicate SlashFree(q: Request) {
    Clean(q) && NoSlash(q.role)
  }

  /** So does a slash in the role, which can be taken for one between the parts. */
  lemma SlashCollides(q: Request) returns (p: Request)
    requires !SlashFree(q)
    ensures Key(p) == Key(q) && p.account != q.account
  {
    if !Clean(q) {
      p := UncleanCollides(q);
    } else {
      var i :| 0 <= i < |q.role| && q.role[i] == '/';
      assert q.role == q.role[..i] + "/" + q.role[i + 1..];
      p := Request(q.account + "/" + q.region, q.role[..i], q.role[i + 1..]);
      assert |p.account| > |q.account|;
    }
  }

  /** Without any slash the key is that of one request only. */
  lemma SlashFreeKeyIsUnique(p: Request, q: Request)
    requires SlashFree(q) && Key(p) == Key(q)
    ensures p == q
  {
    var k, first, second := Key(q), |q.account|, |q.account| + 1 + |q.region|;
    assert forall i :: 0 <= i < |k| && k[i] == '/' ==> i == first || i == second;
    assert Key(p)[|p.account|] == '/' && Key(p)[|p.account| + 1 + |p.region|] == '/';
    assert p.account == k[..first] == q.account;
    assert p.region == k[first + 1..second] == q.region;
    assert p.role == k[second + 1..] == q.role;
  }

  // ---- interleaved calls ----

  type CallId = nat

  /** How far a call has come. */
  datatype Stage =
    | Started
    | Reading
    | Looked(found: Option<Manager>)
    | Missed
    | Writing
    | Built(manager: Manager)
    | BuildFailed
    | Stored(manager: Manager)
    | Returned(manager: Manager)
    | Errored

  datatype Call = Call(request: Request, stage: Stage)

  /** readers and writer are the holders of the RWMutex. */
  datatype State = State(
    cache: map<string, Manager>,
    calls: map<CallId, Call>,
    readers: set<CallId>,
    writer: Option<CallId>,
    serial: nat)

  const INITIAL := State(map[], map[], {}, None, 0)

  datatype Action =
    | Begin(id: CallId, request: Request)
    | LockRead(id: CallId)
    | Lookup(id: CallId)
    | UnlockRead(id: CallId)
    | LockWrite(id: CallId)
    | Build(id: CallId, ok: bool)
    | Store(id: CallId)
    | UnlockWrite(id: CallId)

  predicate At(s: State, id: CallId, stage: Stage) {
    id in s.calls && s.calls[id].stage == stage
  }

  predicate Enabled(s: State, a: Action) {
    match a
    case Begin(id, _) => id !in s.calls
    case LockRead(id) => At(s, id, Started) && s.writer.None?
    case Lookup(id) => At(s, id, Reading)
    case UnlockRead(id) => id in s.calls && s.calls[id].stage.Looked?
    case LockWrite(id) => At(s, id, Missed) && s.writer.None? && s.readers == {}
    case Build(id, _) => At(s, id, Writing)
    case Store(id) => id in s.calls && s.calls[id].stage.Built?
    case UnlockWrite(id) => id in s.calls && (s.calls[id].stage.Stored? || s.calls[id].stage.BuildFailed?)
  }

  function Move(s: State, id: CallId, stage: Stage): State
    requires id in s.calls
  {
    s.(calls := s.calls[id := s.calls[id].(stage := stage)])
  }

  function Do(s: State, a: Action): State
    requires Enabled(s, a)
  {
    match a
    case Begin(id, q) => s.(calls := s.calls[id := Call(q, Started)])
    case LockRead(id) => Move(s, id, Reading).(readers := s.readers + {id})
    case Lookup(id) =>
      var k := Key(s.calls[id].request);
      Move(s, id, Looked(if k in s.cache then Some(s.cache[k]) else None))
    case UnlockRead(id) =>
      var found := s.calls[id].stage.found;
      Move(s, id, if found.Some? then Returned(found.value) else Missed).(readers := s.readers - {id})
    case LockWrite(id) => Move(s, id, Writing).(writer := Some(id))
    case Build(id, ok) =>
      var q := s.calls[id].request;
      if ok then Move(s, id, Built(Manager(q.account, q.region, s.serial))).(serial := s.serial + 1)
      else Move(s, id, BuildFailed)
    case Store(id) =>
      var m := s.calls[id].stage.manager;
      Move(s, id, Stored(m)).(cache := s.cache[Key(s.calls[id].request) := m])
    case UnlockWrite(id) =>
      var stage := s.calls[id].stage;
      Move(s, id, if stage.Stored? then Returned(stage.manager) else Errored).(writer := None)
  }

  /** A run that can take the given actions from s ends in t. */
  ghost predicate Runs(s: State, run: seq<Action>, t: State)
    decreases |run|
  {
    if run == [] then t == s
    else Enabled(s, run[0]) && Runs(Do(s, run[0]), run[1..], t)
  }

  // ---- what every interleaving keeps ----

  predicate HoldsRead(stage: Stage) {
    stage.Reading? || stage.Looked?
  }

  predicate HoldsWrite(stage: Stage) {
    stage.Writing? || stage.Built? || stage.BuildFailed? || stage.Stored?
  }

  /** The lock is held by exactly the calls that are between its two steps, and a writer is alone. */
  ghost predicate LockOk(s: State) {
    && (forall id :: id in s.readers <==> id in s.calls && HoldsRead(s.calls[id].stage))
    && (forall id :: s.writer == Some(id) <==> id in s.calls && HoldsWrite(s.calls[id].stage))
    && (s.writer.Some? ==> s.readers == {})
  }

  /** m was built for the account and region of one of the requests with key k. */
  ghost predicate BuiltFor(calls: map<CallId, Call>, m: Manager, k: string) {
    exists id :: id in calls && IsFor(m, calls[id].request) && Key(calls[id].request) == k
  }

  predicate IsFor(m: Manager, q: Request) {
    m.account == q.account && m.region == q.region
  }

  /** The managers a call can hold. */
  function Held(stage: Stage): Option<Manager> {
    match stage
    case Looked(found) => found
    case Built(m) => Some(m)
    case Stored(m) => Some(m)
    case Returned(m) => Some(m)
    case _ => None
  }

  ghost predicate CacheOk(s: State) {
    forall k :: k in s.cache ==> BuiltFor(s.calls, s.cache[k], k)
  }

  ghost predicate HeldOk(s: State) {
    forall id :: id in s.calls && Held(s.calls[id].stage).Some? ==>
      BuiltFor(s.calls, Held(s.calls[id].stage).value, Key(s.calls[id].request))
  }

  ghost predicate Inv(s: State) {
    LockOk(s) && CacheOk(s) && HeldOk(s)
  }

  lemma RequestsKept(s: State, a: Action)
    requires Enabled(s, a)
    ensures var t := Do(s, a);
            forall id :: id in s.calls ==> id in t.calls && t.calls[id].request == s.calls[id].request
    ensures var t := Do(s, a); forall m, k :: BuiltFor(s.calls, m, k) ==> BuiltFor(t.calls, m, k)
  {
  }

  lemma StepKeepsLockOk(s: State, a: Action)
    requires LockOk(s) && Enabled(s, a)
    ensures LockOk(Do(s, a))
  {
    hide Key;
  }

  lemma OwnManager(s: State, id: CallId)
    requires id in s.calls
    ensures var q := s.calls[id].request; BuiltFor(s.calls, Manager(q.account, q.region, s.serial), Key(q))
  {
  }

  lemma StepKeepsCacheOk(s: State, a: Action)
    requires CacheOk(s) && HeldOk(s) && Enabled(s, a)
    ensures CacheOk(Do(s, a))
  {
    RequestsKept(s, a);
    hide BuiltFor, Key;
  }

  lemma MoveKeepsHeldOk(s: State, a: Action, id: CallId)
    requires HeldOk(s) && Enabled(s, a) && id in s.calls
    requires var t := Do(s, a);
             && t.calls == s.calls[id := t.calls[id]]
             && t.calls[id].request == s.calls[id].request
             && (Held(t.calls[id].stage).Some? ==>
                   BuiltFor(s.calls, Held(t.calls[id].stage).value, Key(s.calls[id].request)))
    ensures HeldOk(Do(s, a))
  {
    RequestsKept(s, a);
    hide BuiltFor, Key, Do, Enabled, Held;
  }

  lemma BeginKeepsHeldOk(s: State, a: Action)
    requires HeldOk(s) && Enabled(s, a) && a.Begin?
    ensures HeldOk(Do(s, a))
  {
    RequestsKept(s, a);
    hide BuiltFor, Key;
  }

  lemma StepKeepsHeldOk(s: State, a: Action)
    requires CacheOk(s) && HeldOk(s) && Enabled(s, a)
    ensures HeldOk(Do(s, a))
  {
    hide BuiltFor, Key;
    match a {
      case Begin(id, _) => BeginKeepsHeldOk(s, a);
      case LockRead(id) => MoveKeepsHeldOk(s, a, id);
      case Lookup(id) => MoveKeepsHeldOk(s, a, id);
      case UnlockRead(id) => MoveKeepsHeldOk(s, a, id);
      case LockWrite(id) => MoveKeepsHeldOk(s, a, id);
      case Build(id, _) =>
        OwnManager(s, id);
        MoveKeepsHeldOk(s, a, id);
      case Store(id) => MoveKeepsHeldOk(s, a, id);
      case UnlockWrite(id) => MoveKeepsHeldOk(s, a, id);
    }
  }

  lemma {:induction false} RunKeepsInv(s: State, run: seq<Action>, t: State)
    requires Inv(s) && Runs(s, run, t)
    ensures Inv(t)
    decreases |run|
  {
    if run != [] {
      StepKeepsLockOk(s, run[0]);
      StepKeepsCacheOk(s, run[0]);
      StepKeepsHeldOk(s, run[0]);
      RunKeepsInv(Do(s, run[0]), run[1..], t);
      hide LockOk, CacheOk, HeldOk;
    }
  }

  ghost predicate Reachable(s: State) {
    exists run :: Runs(INITIAL, run, s)
  }

  /** Every manager a call holds or has returned, and every manager cached for a call, is for the
      account and region the call asked for. */
  ghost predicate Served(s: State) {
    && (forall id :: id in s.calls && Held(s.calls[id].stage).Some? ==>
          IsFor(Held(s.calls[id].stage).value, s.calls[id].request))
    && (forall id :: id in s.calls && Key(s.calls[id].request) in s.cache ==>
          IsFor(s.cache[Key(s.calls[id].request)], s.calls[id].request))
  }

  ghost predicate AskedFrom(s: State, requests: iset<Request>) {
    forall id :: id in s.calls ==> s.calls[id].request in requests
  }

  predicate SamePlace(p: Request, q: Request) {
    p.account == q.account && p.region == q.region
  }

  /** Requests that share a key ask for the same account and region. */
  ghost predicate KeysAgree(requests: iset<Request>) {
    forall p, q :: p in requests && q in requests && Key(p) == Key(q) ==> SamePlace(p, q)
  }

  lemma AgreeingKeysServe(s: State, requests: iset<Request>)
    requires Reachable(s) && AskedFrom(s, requests) && KeysAgree(requests)
    ensures Served(s)
  {
    hide Key;
    var run :| Runs(INITIAL, run, s);
    RunKeepsInv(INITIAL, run, s);
    forall m, id | id in s.calls && BuiltFor(s.calls, m, Key(s.calls[id].request))
      ensures IsFor(m, s.calls[id].request)
    {
      var maker :| maker in s.calls && IsFor(m, s.calls[maker].request)
                && Key(s.calls[maker].request) == Key(s.calls[id].request);
      assert SamePlace(s.calls[maker].request, s.calls[id].request);
    }
  }

  /** In every reachable state every cached manager was built for the account and region of a
      request with its key. */
  lemma CachedAreBuiltForTheirKey(s: State)
    requires Reachable(s)
    ensures forall k :: k in s.cache ==> BuiltFor(s.calls, s.cache[k], k)
  {
    var run :| Runs(INITIAL, run, s);
    RunKeepsInv(INITIAL, run, s);
  }

  /** In every reachable state a call that writes is the only one inside the lock. */
  lemma WriterIsAlone(s: State, id: CallId, other: CallId)
    requires Reachable(s) && id in s.calls && other in s.calls && id != other
    requires HoldsWrite(s.calls[id].stage)
    ensures !HoldsWrite(s.calls[other].stage) && !HoldsRead(s.calls[other].stage)
  {
    var run :| Runs(INITIAL, run, s);
    RunKeepsInv(INITIAL, run, s);
  }

  // ---- how often a key is overwritten ----

  predicate HasMissed(stage: Stage) {
    stage == Looked(None) || stage.Missed? || stage.Writing? || stage.Built?
  }

  /** The calls for k that found nothing and have not stored yet. */
  function Pending(s: State, k: string): set<CallId> {
    set id | id in s.calls && Key(s.calls[id].request) == k && HasMissed(s.calls[id].stage)
  }

  predicate Stores(s: State, a: Action, k: string)
    requires Enabled(s, a)
  {
    a.Store? && Key(s.calls[a.id].request) == k
  }

  /** How often a run stores under k. */
  ghost function StoreCount(s: State, run: seq<Action>, k: string, t: State): nat
    requires Runs(s, run, t)
    decreases |run|
  {
    if run == [] then 0
    else (if Stores(s, run[0], k) then 1 else 0) + StoreCount(Do(s, run[0]), run[1..], k, t)
  }

  lemma StepOnKey(s: State, a: Action, k: string)
    requires Enabled(s, a) && k in s.cache
    ensures var t := Do(s, a);
            && k in t.cache
            && (!Stores(s, a, k) ==> t.cache[k] == s.cache[k] && Pending(t, k) <= Pending(s, k))
            && (Stores(s, a, k) ==> a.id in Pending(s, k) && Pending(t, k) == Pending(s, k) - {a.id})
  {
    hide Key;
  }

  /** Once a key is there it stays; after that it is stored at most once by each call that had
      already missed, and each such store uses one of these calls up; when none is left the
      manager under the key never changes again. */
  lemma {:induction false} StoresAreBounded(s: State, run: seq<Action>, k: string, t: State)
    requires Runs(s, run, t) && k in s.cache
    ensures k in t.cache
    ensures Pending(t, k) <= Pending(s, k)
    ensures StoreCount(s, run, k, t) + |Pending(t, k)| <= |Pending(s, k)|
    ensures StoreCount(s, run, k, t) == 0 ==> t.cache[k] == s.cache[k]
    decreases |run|
  {
    hide Pending, Do, Enabled, Key, Stores;
    if run != [] {
      var next := Do(s, run[0]);
      StepOnKey(s, run[0], k);
      SmallerSet(Pending(next, k), Pending(s, k));
      if Stores(s, run[0], k) {
        SmallerSet(Pending(next, k) + {run[0].id}, Pending(s, k));
      }
      StoresAreBounded(next, run[1..], k, t);
    }
  }

  /** From the first store under a key on: at most one more store for every other call that had
      missed by then, and none at all if there was no other. */
  lemma AfterTheFirstStore(s: State, a: Action, k: string, run: seq<Action>, t: State)
    requires Enabled(s, a) && Stores(s, a, k) && k !in s.cache
    requires Runs(Do(s, a), run, t)
    ensures StoreCount(Do(s, a), run, k, t) < |Pending(s, k)|
    ensures Pending(s, k) == {a.id} ==> k in t.cache && t.cache[k] == s.calls[a.id].stage.manager
  {
    var next := Do(s, a);
    assert Pending(next, k) == Pending(s, k) - {a.id} && a.id in Pending(s, k);
    StoresAreBounded(next, run, k, t);
  }

  // ---- what the cache does not promise ----

  lemma {:induction false} RunsOn(s: State, run: seq<Action>, t: State, a: Action)
    requires Runs(s, run, t) && Enabled(t, a)
    ensures Runs(s, run + [a], Do(t, a))
    decreases |run|
  {
    hide Do, Enabled;
    if run == [] {
      assert [a][1..] == [] && run + [a] == [a];
    } else {
      assert (run + [a])[1..] == run[1..] + [a];
      RunsOn(Do(s, run[0]), run[1..], t, a);
    }
  }

  lemma ReachOn(s: State, a: Action) returns (t: State)
    requires Reachable(s) && Enabled(s, a)
    ensures Reachable(t) && t == Do(s, a)
  {
    var run :| Runs(INITIAL, run, s);
    RunsOn(INITIAL, run, s, a);
    t := Do(s, a);
  }

  /** A call that starts with nothing else going on, up to its miss. */
  lemma ReachMiss(s: State, id: CallId, q: Request) returns (t: State)
    requires Reachable(s) && s.readers == {} && s.writer.None? && id !in s.calls && Key(q) !in s.cache
    ensures Reachable(t) && t == s.(calls := s.calls[id := Call(q, Missed)])
  {
    hide Key;
    t := ReachOn(s, Begin(id, q));
    t := ReachOn(t, LockRead(id));
    t := ReachOn(t, Lookup(id));
    t := ReachOn(t, UnlockRead(id));
  }

  lemma ReachStore(s: State, id: CallId, q: Request) returns (t: State)
    requires Reachable(s) && s.readers == {} && s.writer.None? && id in s.calls && s.calls[id] == Call(q, Missed)
    ensures var m := Manager(q.account, q.region, s.serial);
            Reachable(t) && t == s.(calls := s.calls[id := Call(q, Returned(m))], cache := s.cache[Key(q) := m],
                                    serial := s.serial + 1)
  {
    hide Key;
    t := ReachOn(s, LockWrite(id));
    t := ReachOn(t, Build(id, true));
    t := ReachOn(t, Store(id));
    t := ReachOn(t, UnlockWrite(id));
  }

  /** A call that nothing interrupts does to the cache what the method ManagerFor does. */
  lemma CallAlone(s: State, id: CallId, q: Request) returns (t: State)
    requires Reachable(s) && s.readers == {} && s.writer.None? && id !in s.calls
    ensures Reachable(t)
    ensures var hit := Key(q) in s.cache;
            var m := if hit then s.cache[Key(q)] else Manager(q.account, q.region, s.serial);
            && t.calls == s.calls[id := Call(q, Returned(m))]
            && t.cache == (if hit then s.cache else s.cache[Key(q) := m])
            && t.readers == {} && t.writer.None?
  {
    hide Key;
    if Key(q) in s.cache {
      t := ReachOn(s, Begin(id, q));
      t := ReachOn(t, LockRead(id));
      t := ReachOn(t, Lookup(id));
      t := ReachOn(t, UnlockRead(id));
    } else {
      t := ReachMiss(s, id, q);
      t := ReachStore(t, id, q);
    }
  }

  /** A call whose build fails leaves the cache alone and the lock free, and returns no manager. */
  lemma FailedCallAlone(s: State, id: CallId, q: Request) returns (t: State)
    requires Reachable(s) && s.readers == {} && s.writer.None? && id !in s.calls && Key(q) !in s.cache
    ensures Reachable(t) && t == s.(calls := s.calls[id := Call(q, Errored)])
  {
    hide Key;
    t := ReachMiss(s, id, q);
    t := ReachOn(t, LockWrite(id));
    t := ReachOn(t, Build(id, false));
    t := ReachOn(t, UnlockWrite(id));
  }

  /** After a call for p that ran to its end, one for q with the same key returns p's manager. */
  lemma SharedKeyServesFirst(p: Request, q: Request) returns (s: State)
    requires Key(p) == Key(q)
    ensures Reachable(s) && s.calls.Keys == {0, 1}
    ensures s.calls[0].request == p && s.calls[1].request == q
    ensures s.calls[1].stage.Returned? && IsFor(s.calls[1].stage.manager, p)
  {
    hide Key, Runs;
    assert Reachable(INITIAL) by {
      NoActions();
    }
    s := CallAlone(INITIAL, 0, p);
    s := CallAlone(s, 1, q);
  }

  /** Whatever the requests of the callers, all runs serve all of them rightly if and only if
      requests that share a key ask for the same account and region. */
  lemma AllServedIffKeysAgree(requests: iset<Request>)
    ensures (forall s :: Reachable(s) && AskedFrom(s, requests) ==> Served(s)) <==> KeysAgree(requests)
  {
    hide Reachable, Key;
    forall s | KeysAgree(requests) && Reachable(s) && AskedFrom(s, requests)
      ensures Served(s)
    {
      AgreeingKeysServe(s, requests);
    }
    forall p, q | p in requests && q in requests && Key(p) == Key(q) && !SamePlace(p, q)
      ensures exists s :: Reachable(s) && AskedFrom(s, requests) && !Served(s)
    {
      var s := SharedKeyServesFirst(p, q);
      assert 1 in s.calls && Held(s.calls[1].stage).Some?;
      assert AskedFrom(s, requests) && !Served(s);
    }
  }

  /** Requests without a slash in account and region are always served rightly. */
  lemma CleanRequestsAgree()
    ensures KeysAgree(iset q: Request | Clean(q))
  {
    forall p, q | Clean(p) && Clean(q) && Key(p) == Key(q)
      ensures p == q
    {
      KeyIsInjective(p, q);
    }
  }

  /** Every request with a slash in account or region is in some run given a manager of another
      account and region. */
  lemma UncleanCanBeMisserved(q: Request) returns (s: State)
    requires !Clean(q)
    ensures Reachable(s) && 1 in s.calls && s.calls[1].request == q && s.calls[1].stage.Returned?
    ensures s.calls[1].stage.manager.account != q.account && s.calls[1].stage.manager.region != q.region
  {
    var p := UncleanCollides(q);
    s := SharedKeyServesFirst(p, q);
  }

  predicate Misserved(s: State, id: CallId) {
    id in s.calls && s.calls[id].stage.Returned? && !IsFor(s.calls[id].stage.manager, s.calls[id].request)
  }

  /** A call for q is in some run given a manager for another account or region if and only if
      there is a slash anywhere in q, and a role ARN has one. */
  lemma CanBeMisservedIff(q: Request)
    ensures (exists s, id :: Reachable(s) && Misserved(s, id) && s.calls[id].request == q) <==> !SlashFree(q)
  {
    hide Reachable, Key, Clean;
    if !SlashFree(q) {
      var p := SlashCollides(q);
      var s := SharedKeyServesFirst(p, q);
      assert Misserved(s, 1);
    }
    forall s, id | Reachable(s) && Misserved(s, id) && s.calls[id].request == q
      ensures !SlashFree(q)
    {
      HeldAreBuiltForTheirKey(s, id);
      var maker :| maker in s.calls && IsFor(s.calls[id].stage.manager, s.calls[maker].request)
                && Key(s.calls[maker].request) == Key(q);
      if SlashFree(q) {
        SlashFreeKeyIsUnique(s.calls[maker].request, q);
      }
    }
  }

  lemma HeldAreBuiltForTheirKey(s: State, id: CallId)
    requires Reachable(s) && id in s.calls && s.calls[id].stage.Returned?
    ensures BuiltFor(s.calls, s.calls[id].stage.manager, Key(s.calls[id].request))
  {
    var run :| Runs(INITIAL, run, s);
    RunKeepsInv(INITIAL, run, s);
    assert Held(s.calls[id].stage).Some?;
  }

  /** Two calls for the same request can return two managers, for every request. */
  lemma CallsNeedNotShare(q: Request) returns (s: State)
    ensures Reachable(s)
    ensures 0 in s.calls && 1 in s.calls && s.calls[0].request == q == s.calls[1].request
    ensures s.calls[0].stage.Returned? && s.calls[1].stage.Returned?
    ensures s.calls[0].stage.manager != s.calls[1].stage.manager
  {
    hide Key, Runs;
    assert Reachable(INITIAL) by {
      NoActions();
    }
    hide Reachable;
    s := ReachMiss(INITIAL, 0, q);
    s := ReachMiss(s, 1, q);
    s := ReachStore(s, 0, q);
    s := ReachStore(s, 1, q);
  }

  lemma NoActions()
    ensures Runs(INITIAL, [], INITIAL)
  {
  }

  // ---- one call on its own ----

  /** A cached resource manager. */
  class ResourceManager {
    const account: string
    const region: string

    constructor (account: string, region: string)
      ensures this.account == account && this.region == region
    {
      this.account, this.region := account, region;
    }
  }

  /** The two critical sections, as they act on the map. */
  class ResourceManagerFactory {
    var rmCache: map<string, ResourceManager>

    constructor ()
      ensures rmCache == map[]
    {
      rmCache := map[];
    }

    /** Every cached manager is for a request with its key, and one without slashes if clean. */
    ghost predicate Valid()
      reads this
    {
      forall k :: k in rmCache ==>
        exists role :: Key(Request(rmCache[k].account, rmCache[k].region, role)) == k
    }

    ghost predicate CleanCache()
      reads this
    {
      forall k :: k in rmCache ==> NoSlash(rmCache[k].account) && NoSlash(rmCache[k].region)
    }

    /** Under the read lock. */
    method ReadSection(q: Request) returns (rm: ResourceManager?)
      ensures rm == if Key(q) in rmCache then rmCache[Key(q)] else null
    {
      rm := null;
      if Key(q) in rmCache {
        rm := rmCache[Key(q)];
      }
    }

    /** Under the write lock; the key is not looked up again. */
    method WriteSection(q: Request) returns (rm: ResourceManager)
      modifies this
      ensures fresh(rm) && rm.account == q.account && rm.region == q.region
      ensures rmCache == old(rmCache)[Key(q) := rm]
    {
      rm := new ResourceManager(q.account, q.region);
      rmCache := rmCache[Key(q) := rm];
    }

    /** One call that nothing interrupts: an existing manager is given back and the cache left
        alone, otherwise a new one is added and everything else kept. */
    method ManagerFor(q: Request) returns (rm: ResourceManager)
      requires Valid()
      modifies this
      ensures Valid()
      ensures old(CleanCache()) && Clean(q) ==> CleanCache() && rm.account == q.account && rm.region == q.region
      ensures if Key(q) in old(rmCache) then rm == old(rmCache)[Key(q)] && rmCache == old(rmCache)
              else fresh(rm) && rmCache == old(rmCache)[Key(q) := rm]
    {
      var found := ReadSection(q);
      if found != null {
        ghost var role :| Key(Request(found.account, found.region, role)) == Key(q);
        if CleanCache() && Clean(q) {
          KeyIsInjective(Request(found.account, found.region, role), q);
        }
        return found;
      }
      rm := WriteSection(q);
      assert Key(Request(rm.account, rm.region, q.role)) == Key(q);
    }
  }
}
