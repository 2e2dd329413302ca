/** The market TTL cache of the REST info client: double-checked locking over a
    read/write lock with the fetch made under the write lock. Any number of lookups
    and invalidations interleave; the network decides how each fetch ends. */
module MarketCache {
  import opened Wrappers

  datatype Market = Market(symbol: string, priceIncrement: string, orderSizeIncrement: string)

  // The cached fields of Client.marketCache.
  datatype Cache = Cache(populated: bool, markets: seq<Market>, fetchedAt: int)

  // time.Since(fetchedAt) < ttl, under either lock.
  predicate Fresh(c: Cache, ttl: int, now: int) {
    c.populated && now - c.fetchedAt < ttl
  }

  type LookupId = nat

  datatype LookupPc =
    | Started
    | Reading                        // holds the read lock
    | NeedsWrite                     // found the cache stale, released the read lock
    | Writing                        // holds the write lock, re-check is next
    | Fetching(startedAt: int, epoch: nat)  // holds the write lock, getMarkets in flight
    | FetchingDirect                 // negative TTL: no cache, no lock
    | Served(markets: seq<Market>, fetch: int, at: int)  // answered from the cache, by fetch number `fetch`
    | Fetched(markets: seq<Market>, fetch: int)          // answered by its own fetch
    | Direct(markets: seq<Market>)
    | Failed

  // History: a fetch that succeeded; epoch counts the invalidations before it began.
  datatype Fetch = Fetch(markets: seq<Market>, startedAt: int, storedAt: int, epoch: nat)

  datatype State = State(
    now: int,
    cache: Cache,
    writer: Option<LookupId>,
    readers: set<LookupId>,
    lookups: map<LookupId, LookupPc>,
    began: map<LookupId, nat>,       // history: invalidations done when the lookup began
    fetches: seq<Fetch>,             // history: every fetch that was stored
    invalidations: nat               // history
  )

  const EMPTY_CACHE := Cache(false, [], 0)
  const INIT := State(0, EMPTY_CACHE, None, {}, map[], map[], [], 0)

  datatype Step =
    | Begin(id: LookupId)
    | ReadLock(id: LookupId)
    | Check(id: LookupId)
    | WriteLock(id: LookupId)
    | Recheck(id: LookupId)
    | FetchSucceeds(id: LookupId, markets: seq<Market>)
    | FetchFails(id: LookupId)
    | Invalidate
    | Tick(d: nat)

  function Go(s: State, id: LookupId, pc: LookupPc): State {
    s.(lookups := s.lookups[id := pc])
  }

  // RUnlock with the answer, or on the way to the write lock.
  function DoCheck(s: State, id: LookupId, ttl: int): State {
    var s := s.(readers := s.readers - {id});
    if Fresh(s.cache, ttl, s.now) then
      Go(s, id, Served(s.cache.markets, |s.fetches| - 1, s.now))
    else
      Go(s, id, NeedsWrite)
  }

  function DoRecheck(s: State, id: LookupId, ttl: int): State {
    if Fresh(s.cache, ttl, s.now) then
      Go(s.(writer := None), id, Served(s.cache.markets, |s.fetches| - 1, s.now))
    else
      Go(s, id, Fetching(s.now, s.invalidations))
  }

  function DoStore(s: State, id: LookupId, startedAt: int, epoch: nat, markets: seq<Market>): State {
    var s := s.(
      cache := Cache(true, markets, s.now),
      writer := None,
      fetches := s.fetches + [Fetch(markets, startedAt, s.now, epoch)]
    );
    Go(s, id, Fetched(markets, |s.fetches| - 1))
  }

  // The step of lookup id, which is at pc.
  function Lookup(s: State, id: LookupId, pc: LookupPc, step: Step, ttl: int): Option<State> {
    match (step, pc)
    case (ReadLock(_), Started) =>
      if s.writer.Some? then None else Some(Go(s.(readers := s.readers + {id}), id, Reading))
    case (Check(_), Reading) => Some(DoCheck(s, id, ttl))
    case (WriteLock(_), NeedsWrite) =>
      if s.writer.Some? || s.readers != {} then None else Some(Go(s.(writer := Some(id)), id, Writing))
    case (Recheck(_), Writing) => Some(DoRecheck(s, id, ttl))
    case (FetchSucceeds(_, markets), Fetching(startedAt, epoch)) => Some(DoStore(s, id, startedAt, epoch, markets))
    case (FetchFails(_), Fetching(_, _)) => Some(Go(s.(writer := None), id, Failed))
    case (FetchSucceeds(_, markets), FetchingDirect) => Some(Go(s, id, Direct(markets)))
    case (FetchFails(_), FetchingDirect) => Some(Go(s, id, Failed))
    case _ => None
  }

  // InvalidateMarketCache: one critical section under the write lock.
  function DoInvalidate(s: State): Option<State> {
    if s.writer.Some? || s.readers != {} then None
    else Some(s.(cache := s.cache.(populated := false, markets := []), invalidations := s.invalidations + 1))
  }

  function DoBegin(s: State, id: LookupId, ttl: int): Option<State> {
    if id in s.lookups then None
    else
      var s := s.(began := s.began[id := s.invalidations]);
      Some(Go(s, id, if ttl < 0 then FetchingDirect else Started))
  }

  function Apply(s: State, step: Step, ttl: int): Option<State> {
    match step
    case Begin(id) => DoBegin(s, id, ttl)
    case Invalidate => DoInvalidate(s)
    case Tick(d) => Some(s.(now := s.now + d))
    case _ => if step.id in s.lookups then Lookup(s, step.id, s.lookups[step.id], step, ttl) else None
  }

  function Exec(steps: seq<Step>, ttl: int): Option<State> {
    if steps == [] then Some(INIT)
    else
      match Exec(steps[..|steps| - 1], ttl)
      case None => None
      case Some(s) => Apply(s, steps[|steps| - 1], ttl)
  }

  // ---------------------------------------------------------------------

  predicate HoldsWrite(pc: LookupPc) {
    pc.Writing? || pc.Fetching?
  }

  // What is known of lookup id.
  ghost predicate LookupOk(s: State, id: LookupId, ttl: int) {
    && id in s.lookups && id in s.began && s.began[id] <= s.invalidations
    && (HoldsWrite(s.lookups[id]) <==> s.writer == Some(id))
    && (s.lookups[id].Reading? <==> id in s.readers)
    && match s.lookups[id]
       case Fetching(start, epoch) =>
         epoch == s.invalidations && start <= s.now && (s.cache.populated ==> start - s.cache.fetchedAt >= ttl)
       case Served(markets, k, at) =>
         && 0 <= k < |s.fetches| && markets == s.fetches[k].markets
         && s.fetches[k].epoch >= s.began[id] && s.fetches[k].storedAt <= at < s.fetches[k].storedAt + ttl
       case Fetched(markets, k) =>
         0 <= k < |s.fetches| && markets == s.fetches[k].markets && s.fetches[k].epoch >= s.began[id]
       case _ => true
  }

  ghost predicate LockInv(s: State) {
    && s.lookups.Keys == s.began.Keys
    && s.readers <= s.lookups.Keys
    && (s.writer.Some? ==> s.writer.value in s.lookups && s.readers == {})
  }

  // The cache holds the last fetch exactly when nothing has invalidated it since.
  ghost predicate CacheInv(s: State) {
    var n := |s.fetches|;
    && (s.cache.populated ==> n > 0)
    && (n > 0 ==>
          && s.fetches[n - 1].epoch <= s.invalidations && s.fetches[n - 1].storedAt <= s.now
          && (s.cache.populated <==> s.fetches[n - 1].epoch == s.invalidations)
          && (s.cache.populated ==>
                s.cache.markets == s.fetches[n - 1].markets && s.cache.fetchedAt == s.fetches[n - 1].storedAt))
  }

  ghost predicate Spaced(fetches: seq<Fetch>, ttl: int) {
    && (forall i | 0 <= i < |fetches| :: fetches[i].startedAt <= fetches[i].storedAt)
    && (forall i | 0 < i < |fetches| ::
          && fetches[i - 1].epoch <= fetches[i].epoch
          && (fetches[i].epoch == fetches[i - 1].epoch ==>
                fetches[i].startedAt - fetches[i - 1].storedAt >= ttl))
  }

  ghost predicate LookupsOk(s: State, ttl: int) {
    forall id <- s.lookups :: LookupOk(s, id, ttl)
  }

  ghost predicate Inv(s: State, ttl: int) {
    LockInv(s) && CacheInv(s) && Spaced(s.fetches, ttl) && LookupsOk(s, ttl)
  }

  // Lookups other than the one that moved see only a longer history, unless they
  // are fetching; and then they hold the lock, so the cache did not change.
  lemma OthersOk(s: State, t: State, id: LookupId, ttl: int)
    requires LookupsOk(s, ttl) && s.fetches <= t.fetches && s.now == t.now && s.invalidations == t.invalidations
    requires t.lookups.Keys == s.lookups.Keys + {id} && t.began.Keys == t.lookups.Keys
    requires forall k <- s.lookups | k != id :: t.lookups[k] == s.lookups[k] && t.began[k] == s.began[k]
    requires forall k <- s.lookups | k != id ::
               (k in t.readers <==> k in s.readers) && (t.writer == Some(k) <==> s.writer == Some(k))
    requires t.cache == s.cache || s.writer == Some(id)
    requires LookupOk(t, id, ttl)
    ensures LookupsOk(t, ttl)
  {
    forall k <- t.lookups ensures LookupOk(t, k, ttl) {
      if k != id {
        assert LookupOk(s, k, ttl);
      }
    }
  }

  lemma StoreKeeps(s: State, id: LookupId, startedAt: int, epoch: nat, markets: seq<Market>, ttl: int)
    requires CacheInv(s) && Spaced(s.fetches, ttl) && LookupOk(s, id, ttl)
    requires s.lookups[id] == Fetching(startedAt, epoch)
    ensures CacheInv(DoStore(s, id, startedAt, epoch, markets))
    ensures Spaced(DoStore(s, id, startedAt, epoch, markets).fetches, ttl)
  {
    var n := |s.fetches|;
    assert startedAt <= s.now && epoch == s.invalidations;
    assert n > 0 ==> s.fetches[n - 1].epoch <= epoch;
    assert n > 0 && s.fetches[n - 1].epoch == epoch ==> startedAt - s.fetches[n - 1].storedAt >= ttl;
    hide LookupOk;
    SpacedAppend(s.fetches, Fetch(markets, startedAt, s.now, epoch), ttl);
    hide Spaced;
  }

  lemma SpacedAppend(fetches: seq<Fetch>, f: Fetch, ttl: int)
    requires Spaced(fetches, ttl) && f.startedAt <= f.storedAt
    requires fetches != [] ==>
               var last := fetches[|fetches| - 1];
               && last.epoch <= f.epoch
               && (last.epoch == f.epoch ==> f.startedAt - last.storedAt >= ttl)
    ensures Spaced(fetches + [f], ttl)
  {}

  lemma LockStep(s: State, id: LookupId, step: Step, ttl: int)
    requires LockInv(s) && LookupOk(s, id, ttl)
    requires Lookup(s, id, s.lookups[id], step, ttl).Some?
    ensures var t := Lookup(s, id, s.lookups[id], step, ttl).value;
            && LockInv(t) && t.now == s.now && t.invalidations == s.invalidations
            && t.began == s.began && t.lookups == s.lookups[id := t.lookups[id]]
            && (t.writer == s.writer || s.writer == Some(id) || t.writer == Some(id))
            && (t.writer.Some? ==> s.writer in {None, t.writer})
            && t.readers - {id} == s.readers - {id}
  {}

  // Every lookup step but one leaves the cache and its history alone.
  lemma QuietStep(s: State, id: LookupId, step: Step, ttl: int)
    requires id in s.lookups && Lookup(s, id, s.lookups[id], step, ttl).Some?
    requires !(step.FetchSucceeds? && s.lookups[id].Fetching?)
    ensures var t := Lookup(s, id, s.lookups[id], step, ttl).value;
            t.cache == s.cache && t.fetches == s.fetches && t.now == s.now && t.invalidations == s.invalidations
  {}

  lemma CacheStep(s: State, id: LookupId, step: Step, ttl: int)
    requires CacheInv(s) && Spaced(s.fetches, ttl) && LookupOk(s, id, ttl)
    requires Lookup(s, id, s.lookups[id], step, ttl).Some?
    ensures var t := Lookup(s, id, s.lookups[id], step, ttl).value;
            && CacheInv(t) && Spaced(t.fetches, ttl)
            && s.fetches <= t.fetches && (t.cache == s.cache || s.writer == Some(id))
  {
    if step.FetchSucceeds? && s.lookups[id].Fetching? {
      hide Spaced, CacheInv;
      StoreKeeps(s, id, s.lookups[id].startedAt, s.lookups[id].epoch, step.markets, ttl);
    } else {
      QuietStep(s, id, step, ttl);
      hide Spaced, Lookup, LookupOk;
    }
  }

  lemma OwnStep(s: State, id: LookupId, step: Step, ttl: int)
    requires LockInv(s) && CacheInv(s) && LookupOk(s, id, ttl)
    requires Lookup(s, id, s.lookups[id], step, ttl).Some?
    ensures LookupOk(Lookup(s, id, s.lookups[id], step, ttl).value, id, ttl)
  {}

  lemma LookupKeeps(s: State, id: LookupId, step: Step, ttl: int)
    requires Inv(s, ttl) && id in s.lookups && Lookup(s, id, s.lookups[id], step, ttl).Some?
    ensures Inv(Lookup(s, id, s.lookups[id], step, ttl).value, ttl)
  {
    hide CacheInv, Spaced;
    assert LookupOk(s, id, ttl);
    CacheStep(s, id, step, ttl);
    LockStep(s, id, step, ttl);
    OwnStep(s, id, step, ttl);
    hide LookupOk, Lookup;
    OthersOk(s, Lookup(s, id, s.lookups[id], step, ttl).value, id, ttl);
  }

  lemma BeginKeeps(s: State, id: LookupId, ttl: int)
    requires Inv(s, ttl) && DoBegin(s, id, ttl).Some?
    ensures Inv(DoBegin(s, id, ttl).value, ttl)
  {
    OthersOk(s, DoBegin(s, id, ttl).value, id, ttl);
  }

  lemma EnvironmentKeeps(s: State, step: Step, ttl: int)
    requires Inv(s, ttl) && (step.Invalidate? || step.Tick?) && Apply(s, step, ttl).Some?
    ensures Inv(Apply(s, step, ttl).value, ttl)
  {
    var t := Apply(s, step, ttl).value;
    forall id <- t.lookups ensures LookupOk(t, id, ttl) {
      assert LookupOk(s, id, ttl);
    }
  }

  lemma {:induction false} RunKeepsInv(steps: seq<Step>, ttl: int)
    requires Exec(steps, ttl).Some?
    ensures Inv(Exec(steps, ttl).value, ttl)
  {
    if steps != [] {
      var step := steps[|steps| - 1];
      RunKeepsInv(steps[..|steps| - 1], ttl);
      var s := Exec(steps[..|steps| - 1], ttl).value;
      match step {
        case Begin(id) => BeginKeeps(s, id, ttl);
        case Invalidate => EnvironmentKeeps(s, step, ttl);
        case Tick(_) => EnvironmentKeeps(s, step, ttl);
        case _ => LookupKeeps(s, step.id, step, ttl);
      }
    }
  }

  // ---------------------------------------------------------------------

  /** At most one cached fetch is in flight, and while one is, no read or
      invalidation is in progress. */
  lemma OneFetchInFlight(steps: seq<Step>, ttl: int, a: LookupId, b: LookupId)
    requires Exec(steps, ttl).Some?
    requires a in Exec(steps, ttl).value.lookups && b in Exec(steps, ttl).value.lookups
    requires Exec(steps, ttl).value.lookups[a].Fetching?
    ensures
      var s := Exec(steps, ttl).value;
      && (s.lookups[b].Fetching? ==> a == b)
      && !s.lookups[b].Reading?
      && Apply(s, Invalidate, ttl).None?
  {
    RunKeepsInv(steps, ttl);
    var s := Exec(steps, ttl).value;
    assert LookupOk(s, a, ttl) && LookupOk(s, b, ttl);
  }

  /** With no invalidation between them, a fetch does not even start until a whole
      TTL after the previous successful one was stored; in particular lookups that
      waited for the lock behind a fetch use its answer. */
  lemma FetchesAreSpaced(steps: seq<Step>, ttl: int, i: nat, j: nat)
    requires Exec(steps, ttl).Some? && ttl >= 0
    requires i < j < |Exec(steps, ttl).value.fetches|
    requires Exec(steps, ttl).value.fetches[i].epoch == Exec(steps, ttl).value.fetches[j].epoch
    ensures Exec(steps, ttl).value.fetches[j].startedAt - Exec(steps, ttl).value.fetches[i].storedAt >= ttl
  {
    RunKeepsInv(steps, ttl);
    SpacedBetween(Exec(steps, ttl).value.fetches, ttl, i, j);
  }

  lemma {:induction false} SpacedBetween(fetches: seq<Fetch>, ttl: int, i: nat, j: nat)
    requires Spaced(fetches, ttl) && ttl >= 0 && i < j < |fetches|
    ensures fetches[i].epoch <= fetches[j].epoch
    ensures fetches[i].epoch == fetches[j].epoch ==> fetches[j].startedAt - fetches[i].storedAt >= ttl
  {
    if i < j - 1 {
      SpacedBetween(fetches, ttl, i, j - 1);
    }
  }

  /** Every answer is what one successful fetch returned. It began after every
      invalidation that returned before the lookup began, and an answer from the
      cache was given within the TTL of the time that fetch was stored. */
  lemma AnswersAreCurrent(steps: seq<Step>, ttl: int, id: LookupId)
    requires Exec(steps, ttl).Some? && id in Exec(steps, ttl).value.lookups
    requires Exec(steps, ttl).value.lookups[id].Served? || Exec(steps, ttl).value.lookups[id].Fetched?
    ensures
      var s := Exec(steps, ttl).value;
      var a := s.lookups[id];
      && 0 <= a.fetch < |s.fetches| && id in s.began
      && a.markets == s.fetches[a.fetch].markets
      && s.fetches[a.fetch].epoch >= s.began[id]
      && (a.Served? ==> 0 <= a.at - s.fetches[a.fetch].storedAt < ttl)
  {
    RunKeepsInv(steps, ttl);
    assert LookupOk(Exec(steps, ttl).value, id, ttl);
  }

  /** The cache is populated exactly when a fetch has succeeded since the last
      invalidation, and then it holds that fetch: failures are never cached. */
  lemma CacheHoldsLastSuccess(steps: seq<Step>, ttl: int)
    requires Exec(steps, ttl).Some?
    ensures
      var s := Exec(steps, ttl).value;
      && (s.cache.populated <==> s.fetches != [] && s.fetches[|s.fetches| - 1].epoch == s.invalidations)
      && (s.cache.populated ==>
            var last := s.fetches[|s.fetches| - 1];
            s.cache.markets == last.markets && s.cache.fetchedAt == last.storedAt)
  {
    RunKeepsInv(steps, ttl);
  }

  /** A negative TTL turns the cache off: it stays empty and no lookup takes a lock
      or is served from it. */
  lemma {:induction false} NegativeTtlBypasses(steps: seq<Step>, ttl: int)
    requires Exec(steps, ttl).Some? && ttl < 0
    ensures
      var s := Exec(steps, ttl).value;
      && !s.cache.populated && s.fetches == [] && s.writer.None? && s.readers == {}
      && (forall id <- s.lookups ::
            s.lookups[id].FetchingDirect? || s.lookups[id].Direct? || s.lookups[id].Failed?)
  {
    if steps != [] {
      NegativeTtlBypasses(steps[..|steps| - 1], ttl);
    }
  }

  // ---------------------------------------------------------------------
  // What the answers are

  predicate Answered(s: State, id: LookupId, markets: seq<Market>) {
    id in s.lookups &&
    match s.lookups[id]
    case Fetched(m, _) => m == markets
    case Direct(m) => m == markets
    case _ => false
  }

  predicate HasFailed(s: State, id: LookupId) {
    id in s.lookups && s.lookups[id].Failed?
  }

  lemma AnswerStep(s: State, step: Step, ttl: int, id: LookupId, markets: seq<Market>)
    requires Apply(s, step, ttl).Some?
    ensures Answered(Apply(s, step, ttl).value, id, markets)
            <==> Answered(s, id, markets) || step == FetchSucceeds(id, markets)
    ensures HasFailed(Apply(s, step, ttl).value, id) <==> HasFailed(s, id) || step == FetchFails(id)
  {}

  /** A lookup that fetched for itself, with the cache or without, answers with what
      its own fetch brought, and fails if and only if its own fetch failed. */
  lemma {:induction false} OwnFetchDecides(steps: seq<Step>, ttl: int, id: LookupId, markets: seq<Market>)
    requires Exec(steps, ttl).Some?
    ensures Answered(Exec(steps, ttl).value, id, markets) <==> FetchSucceeds(id, markets) in steps
    ensures HasFailed(Exec(steps, ttl).value, id) <==> FetchFails(id) in steps
  {
    if steps != [] {
      var n := |steps| - 1;
      OwnFetchDecides(steps[..n], ttl, id, markets);
      AnswerStep(Exec(steps[..n], ttl).value, steps[n], ttl, id, markets);
      hide Answered, HasFailed, Apply;
      assert forall x :: x in steps <==> x in steps[..n] || x == steps[n];
    }
  }

  lemma FetchStep(s: State, step: Step, ttl: int)
    requires Apply(s, step, ttl).Some?
    ensures
      var t := Apply(s, step, ttl).value;
      t.fetches == s.fetches
      || (step.FetchSucceeds? && |t.fetches| == |s.fetches| + 1 && s.fetches <= t.fetches
          && t.fetches[|s.fetches|].markets == step.markets && t.fetches[|s.fetches|].storedAt == s.now)
  {}

  /** And what is served from the cache is what somebody's fetch brought. */
  lemma {:induction false} EveryFetchHappened(steps: seq<Step>, ttl: int, k: nat)
    requires Exec(steps, ttl).Some? && k < |Exec(steps, ttl).value.fetches|
    ensures exists id :: FetchSucceeds(id, Exec(steps, ttl).value.fetches[k].markets) in steps
  {
    var n := |steps| - 1;
    var s := Exec(steps[..n], ttl).value;
    FetchStep(s, steps[n], ttl);
    hide Apply;
    if k < |s.fetches| {
      EveryFetchHappened(steps[..n], ttl, k);
      var id :| FetchSucceeds(id, s.fetches[k].markets) in steps[..n];
      assert FetchSucceeds(id, s.fetches[k].markets) in steps;
    } else {
      assert FetchSucceeds(steps[n].id, steps[n].markets) in steps;
    }
  }

  /** The network decides how a fetch ends, at any time, and with whatever it brings. */
  lemma FetchEndsEitherWay(s: State, ttl: int, id: LookupId, markets: seq<Market>)
    requires id in s.lookups && (s.lookups[id].Fetching? || s.lookups[id].FetchingDirect?)
    ensures Apply(s, FetchFails(id), ttl).Some? && Apply(s, FetchSucceeds(id, markets), ttl).Some?
  {}

  /** An invalidation waits for exactly those lookups that hold a lock. */
  lemma InvalidationWaits(steps: seq<Step>, ttl: int)
    requires Exec(steps, ttl).Some?
    ensures
      var s := Exec(steps, ttl).value;
      Apply(s, Invalidate, ttl).Some? <==>
        forall id <- s.lookups :: !s.lookups[id].Reading? && !HoldsWrite(s.lookups[id])
  {
    RunKeepsInv(steps, ttl);
    var s := Exec(steps, ttl).value;
    hide Exec, HoldsWrite;
    forall id <- s.lookups
      ensures (HoldsWrite(s.lookups[id]) <==> s.writer == Some(id)) && (s.lookups[id].Reading? <==> id in s.readers)
    {
      assert LookupOk(s, id, ttl);
    }
  }

  lemma NotDirect(s: State, step: Step, ttl: int, id: LookupId)
    requires Apply(s, step, ttl).Some? && ttl >= 0 && id in Apply(s, step, ttl).value.lookups
    requires id in s.lookups ==> !s.lookups[id].FetchingDirect? && !s.lookups[id].Direct?
    ensures var pc := Apply(s, step, ttl).value.lookups[id]; !pc.FetchingDirect? && !pc.Direct?
  {}

  /** With a TTL that is not negative no lookup goes past the cache. */
  lemma {:induction false} OtherTtlUsesCache(steps: seq<Step>, ttl: int, id: LookupId)
    requires Exec(steps, ttl).Some? && ttl >= 0 && id in Exec(steps, ttl).value.lookups
    ensures !Exec(steps, ttl).value.lookups[id].FetchingDirect? && !Exec(steps, ttl).value.lookups[id].Direct?
  {
    var before := steps[..|steps| - 1];
    var s := Exec(before, ttl).value;
    if id in s.lookups {
      OtherTtlUsesCache(before, ttl, id);
    }
    NotDirect(s, steps[|steps| - 1], ttl, id);
    hide Apply;
  }

  /** Once a whole TTL has passed nobody is answered from the cache any more. */
  lemma CacheExpires(steps: seq<Step>, ttl: int, d: nat)
    requires Exec(steps, ttl).Some? && d >= ttl
    ensures
      var t := Exec(steps + [Tick(d)], ttl);
      t.Some? && !Fresh(t.value.cache, ttl, t.value.now)
  {
    RunKeepsInv(steps, ttl);
    assert (steps + [Tick(d)])[..|steps|] == steps;
  }

  predicate Finished(pc: LookupPc) {
    pc.Served? || pc.Fetched? || pc.Direct? || pc.Failed?
  }

  /** The two locks never block everybody: while a lookup is unfinished, one that
      holds a lock can go on, or else the unfinished one itself can. */
  lemma NoDeadlock(steps: seq<Step>, ttl: int, id: LookupId) returns (step: Step)
    requires Exec(steps, ttl).Some?
    requires id in Exec(steps, ttl).value.lookups && !Finished(Exec(steps, ttl).value.lookups[id])
    ensures !step.Begin? && !step.Invalidate? && !step.Tick?
    ensures Apply(Exec(steps, ttl).value, step, ttl).Some?
    ensures
      var s := Exec(steps, ttl).value;
      step.id == id || s.writer == Some(step.id) || step.id in s.readers
  {
    RunKeepsInv(steps, ttl);
    var s := Exec(steps, ttl).value;
    hide Exec;
    assert LookupOk(s, id, ttl);
    if s.writer.Some? && !s.lookups[id].FetchingDirect? {
      var w := s.writer.value;
      assert LookupOk(s, w, ttl);
      step := if s.lookups[w].Writing? then Recheck(w) else FetchFails(w);
    } else if s.readers != {} && !s.lookups[id].FetchingDirect? {
      var r :| r in s.readers;
      assert LookupOk(s, r, ttl);
      step := Check(r);
    } else {
      step := match s.lookups[id]
              case Started => ReadLock(id)
              case NeedsWrite => WriteLock(id)
              case _ => FetchFails(id);
    }
  }

  // ---------------------------------------------------------------------
  // The critical sections on the object, and the scan of GetMarket

  // The last fetch that succeeded, unless an invalidation or the TTL has passed since.
  function Current(s: State, ttl: int): Option<Fetch> {
    var n := |s.fetches|;
    if n > 0 && s.fetches[n - 1].epoch == s.invalidations && s.now - s.fetches[n - 1].storedAt < ttl
    then Some(s.fetches[n - 1]) else None
  }

  class Client {
    const ttl: int
    var populated: bool
    var markets: seq<Market>
    var fetchedAt: int

    constructor (ttl: int)
      ensures this.ttl == ttl && Models(INIT)
    {
      this.ttl := ttl;
      populated, markets, fetchedAt := false, [], 0;
    }

    ghost predicate Models(s: State)
      reads this
    {
      s.cache == Cache(populated, markets, fetchedAt)
    }

    /** The check under the read lock, and the re-check under the write lock: a
        lookup is answered exactly when a fetch has succeeded within the TTL and not
        been invalidated since, and with what that fetch brought; and the answer is
        the one either step of the protocol gives. */
    method Snapshot(now: int, ghost s: State, ghost id: LookupId) returns (r: Option<seq<Market>>)
      requires Models(s) && CacheInv(s) && now == s.now
      ensures r.Some? <==> Current(s, ttl).Some?
      ensures r.Some? ==> r.value == Current(s, ttl).value.markets
      ensures r.Some? ==>
                var pc := DoCheck(s, id, ttl).lookups[id];
                pc == DoRecheck(s, id, ttl).lookups[id] && pc.Served? && pc.markets == r.value
      ensures r.None? ==> DoCheck(s, id, ttl).lookups[id].NeedsWrite? && DoRecheck(s, id, ttl).lookups[id].Fetching?
    {
      if populated && now - fetchedAt < ttl {
        return Some(markets);
      }
      r := None;
    }

    /** The end of the section under the write lock; `fetched` is what getMarkets gave.
        A success leads to the state after the protocol's store, so the next lookup is
        answered with it; a failure leaves the cache as it was. */
    method Store(fetched: Option<seq<Market>>, now: int, ghost s: State, ghost id: LookupId)
      returns (r: Option<seq<Market>>)
      requires Models(s) && now == s.now && id in s.lookups && s.lookups[id].Fetching?
      modifies this
      ensures r == fetched
      ensures fetched.Some? ==> Models(DoStore(s, id, s.lookups[id].startedAt, s.lookups[id].epoch, fetched.value))
      ensures fetched.None? ==> Models(s)
    {
      if fetched.None? {
        return None;
      }
      markets := fetched.value;
      populated := true;
      fetchedAt := now;
      r := fetched;
    }

    /** Afterwards no lookup is answered from the cache until another fetch succeeds. */
    method InvalidateMarketCache(ghost s: State)
      requires Models(s) && CacheInv(s) && s.writer.None? && s.readers == {}
      modifies this
      ensures Models(DoInvalidate(s).value)
      ensures forall now :: Current(DoInvalidate(s).value.(now := now), ttl).None?
    {
      populated := false;
      markets := [];
    }
  }

  datatype GetMarketResult = Found(market: Market) | SymbolRequired | FetchError | MarketNotFound(symbol: string)

  // The loop of GetMarket over the snapshot that marketsCached returned.
  method GetMarket(snapshot: Option<seq<Market>>, symbol: string) returns (r: GetMarketResult)
    ensures r.SymbolRequired? <==> symbol == ""
    ensures r.FetchError? <==> symbol != "" && snapshot.None?
    ensures r.Found? ==>
              exists i | 0 <= i < |snapshot.value| ::
                && snapshot.value[i] == r.market && r.market.symbol == symbol
                && forall j | 0 <= j < i :: snapshot.value[j].symbol != symbol
    ensures r.MarketNotFound? ==>
              r.symbol == symbol && forall m <- snapshot.value :: m.symbol != symbol
  {
    if symbol == "" {
      return SymbolRequired;
    }
    if snapshot.None? {
      return FetchError;
    }
    var markets := snapshot.value;
    for i := 0 to |markets|
      invariant forall j | 0 <= j < i :: markets[j].symbol != symbol
    {
      if markets[i].symbol == symbol {
        return Found(markets[i]);
      }
    }
    r := MarketNotFound(symbol);
  }
}
