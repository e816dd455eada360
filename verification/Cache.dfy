/**
 The read-through cache of carts: its operations over Redis, and how stale what it serves can be.
 */
module Cache {
  import opened Schema
  import opened RedisStore

  // --------------------------------------------------------- the operations

  /** What is served from the cache: nothing when it is off, Redis is down, the key is absent or corrupt. */
  function Cached(store: Store, enabled: bool, up: bool, tenant: TenantId, user: UserId, now: int): Option<Cart>
  {
    if !enabled || !up then None
    else
      match Live(store, CartReadKey(tenant, user), now)
      case Some(Payload(cart)) => Some(cart)
      case _ => None
  }

  /** A cart is served exactly if the cache is on, Redis answers, and its own key holds it and has not expired. */
  lemma ServedExactly(store: Store, enabled: bool, up: bool, tenant: TenantId, user: UserId, now: int, cart: Cart)
    ensures Cached(store, enabled, up, tenant, user, now) == Some(cart)
            <==> && enabled && up && CartReadKey(tenant, user) in store
                 && now < store[CartReadKey(tenant, user)].expires
                 && store[CartReadKey(tenant, user)].value == Payload(cart)
  {
  }

  class CartCache {
    const redis: Redis
    const enabled: bool
    const ttl: int

    constructor (redis: Redis, enabled: bool, ttl: int)
      ensures this.redis == redis && this.enabled == enabled && this.ttl == ttl
    {
      this.redis, this.enabled, this.ttl := redis, enabled, ttl;
    }

    /** `up` says whether Redis answers; when it does not, every operation fails softly. */
    method Get(tenant: TenantId, user: UserId, up: bool, now: int) returns (r: Option<Cart>)
      ensures r == Cached(redis.store, enabled, up, tenant, user, now)
    {
      if !enabled || !up {
        return None;
      }
      var raw := redis.Get(CartReadKey(tenant, user), now);
      r := if raw.Some? && raw.value.Payload? then Some(raw.value.cart) else None;
    }

    /** Stored for its time to live, and readable under no other tenant or user. */
    method Set(tenant: TenantId, user: UserId, cart: Cart, up: bool, now: int)
      modifies redis
      ensures redis.store == if enabled && up
                             then old(redis.store)[CartReadKey(tenant, user) := Entry(Payload(cart), now + ttl)]
                             else old(redis.store)
    {
      if enabled && up {
        redis.Set(CartReadKey(tenant, user), Payload(cart), now, ttl);
      }
    }

    method Invalidate(tenant: TenantId, user: UserId, up: bool)
      modifies redis
      ensures redis.store == if enabled && up then old(redis.store) - {CartReadKey(tenant, user)} else old(redis.store)
    {
      if enabled && up {
        redis.Delete(CartReadKey(tenant, user));
      }
    }
  }

  /** A database transaction with the invalidations it will run once it has committed. */
  class Transaction {
    var onCommit: seq<(TenantId, UserId)>

    constructor ()
      ensures onCommit == []
    {
      onCommit := [];
    }

    method ScheduleInvalidation(tenant: TenantId, user: UserId)
      modifies this
      ensures onCommit == old(onCommit) + [(tenant, user)]
    {
      onCommit := onCommit + [(tenant, user)];
    }

    /** After the commit every scheduled key is gone and no other is touched, as far as Redis answers. */
    method Committed(cache: CartCache, up: bool)
      modifies this, cache.redis
      ensures onCommit == []
      ensures cache.redis.store == if cache.enabled && up then old(cache.redis.store) - Scheduled(old(onCommit))
                                   else old(cache.redis.store)
    {
      for i := 0 to |onCommit|
        invariant onCommit == old(onCommit)
        invariant cache.redis.store == if cache.enabled && up then old(cache.redis.store) - Scheduled(onCommit[..i])
                                       else old(cache.redis.store)
      {
        cache.Invalidate(onCommit[i].0, onCommit[i].1, up);
        assert onCommit[..i + 1] == onCommit[..i] + [onCommit[i]];
      }
      assert onCommit[..|onCommit|] == onCommit;
      onCommit := [];
    }

    /** A rollback leaves the cache untouched. */
    method RolledBack()
      modifies this
      ensures onCommit == []
    {
      onCommit := [];
    }
  }

  function Scheduled(callbacks: seq<(TenantId, UserId)>): set<RedisKey>
  {
    set i | 0 <= i < |callbacks| :: CartReadKey(callbacks[i].0, callbacks[i].1)
  }

  lemma ScheduledMeans(callbacks: seq<(TenantId, UserId)>, key: RedisKey)
    ensures key in Scheduled(callbacks)
            <==> exists c :: c in callbacks && key == CartReadKey(c.0, c.1)
  {
    if key in Scheduled(callbacks) {
      var i :| 0 <= i < |callbacks| && key == CartReadKey(callbacks[i].0, callbacks[i].1);
      assert callbacks[i] in callbacks;
    }
  }

  // ------------------------------------------------------------------- runs

  type Reader = int

  /** Whose cache it is, the time to live, and the cart before the first commit of the run. */
  datatype Setup = Setup(tenant: TenantId, user: UserId, ttl: int, first: Cart)

  datatype CommitAt = CommitAt(at: int, cart: Cart)

  /** A read of the database: the number of commits it saw, and when. */
  datatype Snapshot = Snapshot(version: nat, at: int)

  /** Where an entry comes from; `skipped` are the later commits whose invalidation had run when it was stored. */
  datatype Stored = Stored(snapshot: Snapshot, at: int, skipped: set<nat>)

  /** An answer from the cache, with the origin of the entry it came from. */
  datatype Served = Served(cart: Cart, at: int, origin: Option<Stored>)

  /**
   The cache of one user: the commits to the cart are numbered from 1; of each, the invalidation is
   still to run (`pending`), was lost (`lost`), or has run.  `redis` holds the entry; `origin` tells
   where it comes from.
   */
  datatype State = State(now: int, commits: seq<CommitAt>, pending: set<nat>, lost: set<nat>,
                         readers: map<Reader, Snapshot>, redis: Store, origin: Option<Stored>, served: seq<Served>)

  datatype Event =
    | Tick
    | Commit(cart: Cart)
    | Invalidation(commit: nat)
    | LoseInvalidation(commit: nat)
    | Read(reader: Reader)
    | Store(reader: Reader)
    | GiveUp(reader: Reader)
    | Serve
    | Evict

  function Number(s: State): nat
  {
    |s.commits|
  }

  /** The cart as the commits up to a version left it. */
  function CartAt(c: Setup, commits: seq<CommitAt>, version: nat): Cart
    requires version <= |commits|
  {
    if version == 0 then c.first else commits[version - 1].cart
  }

  /** The commits after a version whose invalidation has run. */
  function RunSince(s: State, version: nat): set<nat>
  {
    set n: nat | version < n <= Number(s) && n !in s.pending && n !in s.lost
  }

  function KeyOf(c: Setup): RedisKey
  {
    CartReadKey(c.tenant, c.user)
  }

  /** What GET would return now: an expired entry is a miss. */
  function Answer(c: Setup, s: State): Option<Cart>
  {
    Cached(s.redis, true, true, c.tenant, c.user, s.now)
  }

  function Step(c: Setup, s: State, e: Event): State
  {
    match e
    case Tick => s.(now := s.now + 1)
    case Commit(cart) => s.(commits := s.commits + [CommitAt(s.now, cart)], pending := s.pending + {Number(s) + 1})
    case Invalidation(n) =>
      if n !in s.pending then s else s.(pending := s.pending - {n}, redis := s.redis - {KeyOf(c)}, origin := None)
    case LoseInvalidation(n) => if n !in s.pending then s else s.(pending := s.pending - {n}, lost := s.lost + {n})
    case Read(r) => s.(readers := s.readers[r := Snapshot(Number(s), s.now)])
    case Store(r) =>
      if r !in s.readers || s.readers[r].version > Number(s) then s
      else
        var snapshot := s.readers[r];
        s.(redis := s.redis[KeyOf(c) := Entry(Payload(CartAt(c, s.commits, snapshot.version)), s.now + c.ttl)],
           origin := Some(Stored(snapshot, s.now, RunSince(s, snapshot.version))), readers := s.readers - {r})
    case GiveUp(r) => s.(readers := s.readers - {r})
    case Serve => if Answer(c, s).Some? then s.(served := s.served + [Served(Answer(c, s).value, s.now, s.origin)]) else s
    case Evict => s.(redis := s.redis - {KeyOf(c)}, origin := None)
  }

  function Run(c: Setup, es: seq<Event>): State
  {
    if es == [] then State(0, [], {}, {}, map[], map[], None, []) else Step(c, Run(c, es[..|es| - 1]), es[|es| - 1])
  }

  /** A snapshot shows what was committed when it was taken: its own commit and no later one. */
  ghost predicate Current(s: State, snapshot: Snapshot)
  {
    && snapshot.version <= Number(s)
    && snapshot.at <= s.now
    && (forall n :: 0 <= n < snapshot.version ==> s.commits[n].at <= snapshot.at)
    && (forall n :: snapshot.version <= n < Number(s) ==> s.commits[n].at >= snapshot.at)
  }

  /** Redis holds what the origin says, until the time to live is over. */
  ghost predicate EntryOk(c: Setup, s: State)
  {
    && (KeyOf(c) in s.redis <==> s.origin.Some?)
    && (s.origin.Some? ==>
          var origin := s.origin.value;
          && Current(s, origin.snapshot)
          && origin.snapshot.at <= origin.at <= s.now
          && s.redis[KeyOf(c)] == Entry(Payload(CartAt(c, s.commits, origin.snapshot.version)), origin.at + c.ttl)
          && (forall n :: origin.snapshot.version < n <= Number(s) ==> n in s.pending || n in s.lost || n in origin.skipped)
          && (forall n :: n in origin.skipped ==> n > origin.snapshot.version))
  }

  /** An answer was the committed cart when its reader read the database, and not yet expired when it was given. */
  ghost predicate ServedOk(c: Setup, s: State, v: Served)
  {
    && v.at <= s.now && v.origin.Some?
    && var origin := v.origin.value;
       && Current(s, origin.snapshot)
       && v.cart == CartAt(c, s.commits, origin.snapshot.version)
       && origin.snapshot.at <= origin.at <= v.at < origin.at + c.ttl
  }

  ghost predicate CacheOk(c: Setup, s: State)
  {
    && (forall n :: n in s.pending ==> 1 <= n <= Number(s))
    && (forall n :: n in s.lost ==> 1 <= n <= Number(s))
    && (forall n :: 0 <= n < Number(s) ==> s.commits[n].at <= s.now)
    && (forall r :: r in s.readers ==> Current(s, s.readers[r]))
    && EntryOk(c, s)
    && (forall i :: 0 <= i < |s.served| ==> ServedOk(c, s, s.served[i]))
  }

  /** What was read stays what it was: later commits only add to the history. */
  lemma SnapshotStays(c: Setup, s: State, s': State, snapshot: Snapshot)
    requires Current(s, snapshot) && s.commits <= s'.commits && s.now <= s'.now
    requires forall n :: Number(s) <= n < Number(s') ==> s'.commits[n].at >= s.now
    ensures Current(s', snapshot) && CartAt(c, s'.commits, snapshot.version) == CartAt(c, s.commits, snapshot.version)
  {
    assert forall n :: 0 <= n < Number(s) ==> s'.commits[n] == s.commits[n];
  }

  lemma ServedStay(c: Setup, s: State, e: Event)
    requires CacheOk(c, s)
    ensures forall i :: 0 <= i < |Step(c, s, e).served| ==> ServedOk(c, Step(c, s, e), Step(c, s, e).served[i])
  {
    var s' := Step(c, s, e);
    forall i | 0 <= i < |s'.served| ensures ServedOk(c, s', s'.served[i]) {
      if i < |s.served| {
        assert ServedOk(c, s, s.served[i]);
        SnapshotStays(c, s, s', s.served[i].origin.value.snapshot);
      }
    }
  }

  lemma EntryStays(c: Setup, s: State, e: Event)
    requires CacheOk(c, s)
    ensures EntryOk(c, Step(c, s, e))
  {
    if s.origin.Some? {
      SnapshotStays(c, s, Step(c, s, e), s.origin.value.snapshot);
    }
  }

  lemma StepKeeps(c: Setup, s: State, e: Event)
    requires CacheOk(c, s)
    ensures CacheOk(c, Step(c, s, e))
  {
    ServedStay(c, s, e);
    EntryStays(c, s, e);
    forall r | r in s.readers ensures Current(Step(c, s, e), s.readers[r]) {
      SnapshotStays(c, s, Step(c, s, e), s.readers[r]);
    }
  }

  lemma {:induction false} RunKeeps(c: Setup, es: seq<Event>)
    ensures CacheOk(c, Run(c, es))
  {
    if es != [] {
      RunKeeps(c, es[..|es| - 1]);
      StepKeeps(c, Run(c, es[..|es| - 1]), es[|es| - 1]);
    }
  }

  /**
   Coherence, exactly: with no invalidation outstanding, what the cache would answer is the current
   cart unless the invalidation of a later commit was lost, or had run before the entry was stored.
   */
  lemma EntryIsCurrentUnlessStraddled(c: Setup, es: seq<Event>)
    requires Answer(c, Run(c, es)).Some? && Run(c, es).pending == {}
    ensures var s := Run(c, es);
            && s.origin.Some? && s.origin.value.snapshot.version <= Number(s)
            && Answer(c, s) == Some(CartAt(c, s.commits, s.origin.value.snapshot.version))
            && (s.origin.value.snapshot.version == Number(s)
                <==> forall n :: n in s.lost + s.origin.value.skipped ==> n <= s.origin.value.snapshot.version || n > Number(s))
  {
    RunKeeps(c, es);
    var s := Run(c, es);
    if s.origin.value.snapshot.version < Number(s) {
      assert Number(s) in s.lost + s.origin.value.skipped;
    }
  }

  /** No reader of the run stores what it read before a commit after that commit's invalidation, and none is lost. */
  ghost predicate Undisturbed(c: Setup, es: seq<Event>)
  {
    forall i :: 0 <= i < |es| ==>
      var s := Run(c, es[..i]);
      && !es[i].LoseInvalidation?
      && (es[i].Store? && es[i].reader in s.readers ==> RunSince(s, s.readers[es[i].reader].version) == {})
  }

  lemma LastCommitIsAccountedFor(c: Setup, s: State)
    requires CacheOk(c, s) && s.origin.Some? && s.origin.value.snapshot.version < Number(s)
    ensures Number(s) in s.pending + s.lost + s.origin.value.skipped
  {
  }

  lemma {:induction false} NothingSkipped(c: Setup, es: seq<Event>)
    requires Undisturbed(c, es)
    ensures Run(c, es).lost == {}
    ensures Run(c, es).origin.Some? ==> Run(c, es).origin.value.skipped == {}
  {
    if es != [] {
      var init := es[..|es| - 1];
      assert Undisturbed(c, init) by {
        assert forall i :: 0 <= i < |init| ==> es[..i] == init[..i] && es[i] == init[i];
      }
      NothingSkipped(c, init);
      assert es[..|es| - 1] == init;
    }
  }

  /** In such runs what the cache answers with no invalidation outstanding is the current cart. */
  lemma UndisturbedRunsAreCoherent(c: Setup, es: seq<Event>)
    requires Undisturbed(c, es) && Run(c, es).pending == {} && Answer(c, Run(c, es)).Some?
    ensures Answer(c, Run(c, es)) == Some(CartAt(c, Run(c, es).commits, Number(Run(c, es))))
  {
    NothingSkipped(c, es);
    RunKeeps(c, es);
    EntryIsCurrentUnlessStraddled(c, es);
  }

  /** Without that proviso it fails: a reader that straddles a commit leaves an old cart that nothing will delete. */
  lemma StaleEntryAfterWrite(c: Setup, cart: Cart)
    requires c.ttl > 0
    ensures var s := Run(c, [Read(1), Commit(cart), Invalidation(1), Store(1)]);
            s.pending == {} && s.lost == {} && Number(s) == 1 && Answer(c, s) == Some(c.first)
  {
    var e1, e2, e3, e4 := Read(1), Commit(cart), Invalidation(1), Store(1);
    assert [e1, e2, e3, e4][..3] == [e1, e2, e3] && [e1, e2, e3][..2] == [e1, e2];
    assert [e1, e2][..1] == [e1] && [e1][..0] == [];
    var s1 := Step(c, Run(c, []), e1);
    assert Run(c, [e1]) == s1;
    var s2 := Step(c, s1, e2);
    assert Run(c, [e1, e2]) == s2;
    var s3 := Step(c, s2, e3);
    assert Run(c, [e1, e2, e3]) == s3;
    assert s3.readers[1] == Snapshot(0, 0) && s3.now == 0;
  }

  function Ticks(n: nat): seq<Event>
  {
    if n == 0 then [] else Ticks(n - 1) + [Tick]
  }

  lemma {:induction false} TimePasses(c: Setup, es: seq<Event>, n: nat)
    ensures Run(c, es + Ticks(n)) == Run(c, es).(now := Run(c, es).now + n)
    decreases n
  {
    if n == 0 {
      assert es + [] == es;
    } else {
      TimePasses(c, es, n - 1);
      assert es + Ticks(n) == (es + Ticks(n - 1)) + [Tick];
      assert (es + Ticks(n))[..|es + Ticks(n)| - 1] == es + Ticks(n - 1);
    }
  }

  /** A stored cart is answered, and served, for its time to live and not a moment longer. */
  lemma ServedWhileItLives(c: Setup, n: nat)
    ensures var s := Run(c, [Read(1), Store(1)] + Ticks(n));
            && Answer(c, s) == (if n < c.ttl then Some(c.first) else None)
            && Step(c, s, Serve).served
               == if n < c.ttl then [Served(c.first, n, Some(Stored(Snapshot(0, 0), 0, {})))] else []
  {
    var e1, e2 := Read(1), Store(1);
    assert [e1, e2][..1] == [e1] && [e1][..0] == [];
    var s1 := Step(c, Run(c, []), e1);
    assert Run(c, [e1]) == s1;
    var s2 := Step(c, s1, e2);
    assert Run(c, [e1, e2]) == s2;
    assert RunSince(s1, 0) == {};
    TimePasses(c, [e1, e2], n);
  }

  // -------------------------------------------------------------- staleness

  /** Every reader of the run stores within a gap of its read. */
  ghost predicate GapsWithin(c: Setup, es: seq<Event>, gap: int)
  {
    forall i :: 0 <= i < |es| && es[i].Store? && es[i].reader in Run(c, es[..i]).readers ==>
      Run(c, es[..i]).now - Run(c, es[..i]).readers[es[i].reader].at <= gap
  }

  ghost predicate Prompt(origin: Option<Stored>, gap: int)
  {
    origin.Some? ==> origin.value.at - origin.value.snapshot.at <= gap
  }

  lemma {:induction false} OriginsArePrompt(c: Setup, es: seq<Event>, gap: int)
    requires GapsWithin(c, es, gap)
    ensures Prompt(Run(c, es).origin, gap)
    ensures forall i :: 0 <= i < |Run(c, es).served| ==> Prompt(Run(c, es).served[i].origin, gap)
  {
    if es != [] {
      var init := es[..|es| - 1];
      assert GapsWithin(c, init, gap) by {
        assert forall i :: 0 <= i < |init| ==> es[..i] == init[..i] && es[i] == init[i];
      }
      OriginsArePrompt(c, init, gap);
      assert es[..|es| - 1] == init;
    }
  }

  /**
   Staleness is bounded in every timed run, lost invalidations and straddling readers included: whatever
   was served was the committed cart at some moment less than (read-to-store gap + time to live) before,
   so no commit it misses is older than that.
   */
  lemma StalenessIsBounded(c: Setup, es: seq<Event>, gap: int, i: nat)
    requires GapsWithin(c, es, gap) && i < |Run(c, es).served|
    ensures var s := Run(c, es);
            var v := s.served[i];
            exists version: nat, at: int ::
              && Current(s, Snapshot(version, at)) && v.cart == CartAt(c, s.commits, version)
              && at <= v.at < at + gap + c.ttl
              && (forall n :: version <= n < Number(s) ==> v.at - s.commits[n].at < gap + c.ttl)
  {
    RunKeeps(c, es);
    OriginsArePrompt(c, es, gap);
    var s := Run(c, es);
    var v := s.served[i];
    assert ServedOk(c, s, v) && Prompt(v.origin, gap);
    var snapshot := v.origin.value.snapshot;
    assert Current(s, Snapshot(snapshot.version, snapshot.at));
  }
}
