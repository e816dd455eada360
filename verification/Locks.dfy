/**
 The fenced Redis lock: its two commands, and what they guarantee over runs of many processes in which
 keys may expire or be lost at any step.
 */
module Locks {
  import opened Schema
  import opened RedisStore

  // ---------------------------------------------------------- the commands

  /** Entering the block: false when another process holds the key. */
  method AcquireLock(redis: Redis, key: RedisKey, token: string, now: int, ttl: int) returns (acquired: bool)
    modifies redis
    ensures acquired <==> old(Live(redis.store, key, now)).None?
    ensures redis.store == if acquired then old(redis.store)[key := Entry(Token(token), now + ttl)] else old(redis.store)
  {
    acquired := redis.SetNx(key, Token(token), now, ttl);
  }

  /** Leaving the block, with or without an exception: the key goes only if it still holds the token. */
  method ReleaseLock(redis: Redis, key: RedisKey, token: string, now: int)
    modifies redis
    ensures redis.store == if old(Live(redis.store, key, now)) == Some(Token(token)) then old(redis.store) - {key}
                           else old(redis.store)
  {
    var _ := redis.CompareAndDelete(key, Token(token), now);
  }

  // ------------------------------------------------------------------ runs

  type Process = int

  /** A lock as stored, and (invisible to Redis) the process that stored it. */
  datatype Held = Held(token: string, owner: Process)

  /** `inside` are the blocks being executed: for each process, its key and its token. */
  datatype LockState = LockState(locks: map<RedisKey, Held>, inside: map<Process, (RedisKey, string)>)

  datatype LockEvent =
    | Enter(process: Process, key: RedisKey, token: string)
    | Leave(process: Process)
    /** The key expires, or Redis loses it. */
    | Lose(key: RedisKey)

  function LockStep(s: LockState, e: LockEvent): LockState
  {
    match e
    case Enter(p, k, t) =>
      if p in s.inside || k in s.locks then s
      else LockState(s.locks[k := Held(t, p)], s.inside[p := (k, t)])
    case Leave(p) =>
      if p !in s.inside then s
      else
        var (k, t) := s.inside[p];
        var locks := if k in s.locks && s.locks[k].token == t then s.locks - {k} else s.locks;
        LockState(locks, s.inside - {p})
    case Lose(k) => s.(locks := s.locks - {k})
  }

  function LockRun(s: LockState, es: seq<LockEvent>): LockState
  {
    if es == [] then s else LockStep(LockRun(s, es[..|es| - 1]), es[|es| - 1])
  }

  const NO_LOCKS := LockState(map[], map[])

  /** No two acquisitions of a run use the same token. */
  ghost predicate DistinctTokens(es: seq<LockEvent>)
  {
    forall i, j :: 0 <= i < j < |es| && es[i].Enter? && es[j].Enter? ==> es[i].token != es[j].token
  }

  ghost predicate Used(es: seq<LockEvent>, token: string)
  {
    exists i :: 0 <= i < |es| && es[i].Enter? && es[i].token == token
  }

  /** Tokens in the state come from the run, and a token tells whose lock it is. */
  ghost predicate Traced(es: seq<LockEvent>, s: LockState)
  {
    && (forall k :: k in s.locks ==> Used(es, s.locks[k].token))
    && (forall p :: p in s.inside ==> Used(es, s.inside[p].1))
    && (forall k, p :: k in s.locks && p in s.inside && s.locks[k].token == s.inside[p].1 ==> s.locks[k].owner == p)
  }

  lemma TracedStep(init: seq<LockEvent>, es: seq<LockEvent>, s: LockState, e: LockEvent)
    requires Traced(init, s)
    requires forall t :: Used(init, t) ==> Used(es, t)
    requires e.Enter? ==> Used(es, e.token) && !Used(init, e.token)
    ensures Traced(es, LockStep(s, e))
  {
  }

  lemma {:induction false} RunIsTraced(es: seq<LockEvent>)
    requires DistinctTokens(es)
    ensures Traced(es, LockRun(NO_LOCKS, es))
  {
    if es != [] {
      var init, e := es[..|es| - 1], es[|es| - 1];
      RunIsTraced(init);
      forall t | Used(init, t) ensures Used(es, t) {
        var i :| 0 <= i < |init| && init[i].Enter? && init[i].token == t;
        assert es[i] == init[i];
      }
      if e.Enter? {
        assert Used(es, e.token) by { assert es[|init|] == e; }
        assert !Used(init, e.token);
      }
      TracedStep(init, es, LockRun(NO_LOCKS, init), e);
    }
  }

  /**
   Fencing: whatever expired before, a process leaving its block never removes a lock that another
   process holds, as long as tokens are not reused.
   */
  lemma ReleaseIsFenced(es: seq<LockEvent>, p: Process, key: RedisKey)
    requires DistinctTokens(es)
    ensures var s := LockRun(NO_LOCKS, es);
            key in s.locks && s.locks[key].owner != p ==>
              var s' := LockStep(s, Leave(p));
              key in s'.locks && s'.locks[key] == s.locks[key]
  {
    RunIsTraced(es);
  }

  /** A reused token breaks the fence: the second holder loses its lock to the first one's release. */
  lemma ReusedTokenBreaksTheFence(key: RedisKey, other: RedisKey)
    ensures var s := LockRun(NO_LOCKS, [Enter(1, key, "t"), Lose(key), Enter(2, key, "t")]);
            && key in s.locks && s.locks[key].owner == 2
            && key !in LockStep(s, Leave(1)).locks
  {
    var a, b, c := Enter(1, key, "t"), Lose(key), Enter(2, key, "t");
    assert [a, b, c][..2] == [a, b] && [a, b][..1] == [a] && [a][..0] == [];
    assert LockRun(NO_LOCKS, []) == NO_LOCKS;
    assert LockRun(NO_LOCKS, [a]) == LockStep(NO_LOCKS, a);
    assert LockRun(NO_LOCKS, [a, b]) == LockStep(LockStep(NO_LOCKS, a), b);
  }

  /** No key is lost while a process that stored it is inside its block. */
  ghost predicate HeldThroughout(es: seq<LockEvent>)
  {
    forall i :: 0 <= i < |es| && es[i].Lose? ==>
      var s := LockRun(NO_LOCKS, es[..i]);
      forall p :: p in s.inside ==> s.inside[p].0 != es[i].key
  }

  /** Whoever is inside a block still holds the key of the block. */
  ghost predicate Holding(s: LockState)
  {
    forall p :: p in s.inside ==> s.inside[p].0 in s.locks && s.locks[s.inside[p].0] == Held(s.inside[p].1, p)
  }

  lemma HoldingStep(s: LockState, e: LockEvent)
    requires Holding(s)
    requires e.Lose? ==> forall p :: p in s.inside ==> s.inside[p].0 != e.key
    ensures Holding(LockStep(s, e))
  {
    var s' := LockStep(s, e);
    forall p | p in s'.inside
      ensures s'.inside[p].0 in s'.locks && s'.locks[s'.inside[p].0] == Held(s'.inside[p].1, p)
    {
      assert p in s.inside || (e.Enter? && e.process == p);
    }
  }

  lemma {:induction false} InsideHoldsTheLock(es: seq<LockEvent>)
    requires HeldThroughout(es)
    ensures Holding(LockRun(NO_LOCKS, es))
  {
    if es != [] {
      var init, e := es[..|es| - 1], es[|es| - 1];
      assert HeldThroughout(init) by {
        assert forall i :: 0 <= i < |init| ==> es[i] == init[i] && es[..i] == init[..i];
      }
      InsideHoldsTheLock(init);
      HoldingStep(LockRun(NO_LOCKS, init), e);
    }
  }

  /** Mutual exclusion: if no key is lost under its holder, no two processes are inside for one key. */
  lemma AtMostOneInside(es: seq<LockEvent>, p: Process, q: Process)
    requires HeldThroughout(es)
    ensures var s := LockRun(NO_LOCKS, es);
            p in s.inside && q in s.inside && s.inside[p].0 == s.inside[q].0 ==> p == q
  {
    InsideHoldsTheLock(es);
  }
}
