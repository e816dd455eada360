/**
 The protocol does get checkouts done: a call that runs while no other transaction is open, and whose
 Redis keys are free, returns what the one-instant checkout returns, whatever earlier calls left behind.
 */
module ProtocolProgress {
  import opened Schema
  import opened CartRules
  import opened CouponRules
  import opened CouponLaws
  import opened Idempotency
  import opened Checkout
  import opened Sales
  import opened Protocol
  import opened ProtocolSteps
  import opened ProtocolLaws
  import CouponRace
  import Runs
  import Shop

  /** Nobody else has a transaction open. */
  ghost predicate NoneOpen(s: State, p: Process)
  {
    && (forall q :: q in s.procs && q != p ==> !InTransaction(s.procs[q].phase))
    && (forall w :: w in s.appliers ==> !CouponRace.Open(s.appliers[w].stage))
  }

  /** Workers and applications have not moved. */
  predicate OthersStay(s: State, s': State)
  {
    s'.appliers == s.appliers && s'.jobs == s.jobs && s'.drafts == s.drafts
  }

  /** The outcome of the one-instant checkout on `db0`, and the database it leaves. */
  ghost predicate SettledAs(cfg: Config, db0: Db, db: Db, p: Process, a: Attempt, outcome: Outcome)
  {
    match Atomic(cfg.rules, db0, a, p)
    case Ok(db') => db == db' && p in db'.orders && outcome == Ok(ResultFor(p, db'.orders[p]))
    case Err(e) => db == db0 && outcome == Err(e)
  }

  /** Only process p has moved since s0: it has done nothing visible yet, or it has settled. */
  ghost predicate Underway(cfg: Config, s0: State, s: State, p: Process, a: Attempt)
  {
    && p in s.procs && s == s.(procs := s0.procs[p := Proc(a, s.procs[p].phase)])
    && s.sentinels == s0.sentinels && s.locks == s0.locks && OthersStay(s0, s)
    && (InTransaction(s.procs[p].phase) || s.procs[p].phase.Locked? || s.procs[p].phase.Ended?)
    && (if s.procs[p].phase.Ended? then SettledAs(cfg, s0.db, s.db, p, a, s.procs[p].phase.outcome) else s.db == s0.db)
  }

  ghost predicate Ready(cfg: Config, s0: State, s: State, p: Process, a: Attempt)
  {
    Inv(cfg, s) && Underway(cfg, s0, s, p, a)
  }

  lemma NoneOpenStays(cfg: Config, s0: State, s: State, p: Process, a: Attempt)
    requires NoneOpen(s0, p) && Underway(cfg, s0, s, p, a)
    ensures NoneOpen(s, p)
  {
  }

  /** What a step logs is what the one-instant checkout returns: so a call that settles has settled right. */
  lemma SettlesRight(cfg: Config, s: State, s': State, p: Process, a: Attempt, outcome: Outcome)
    requires LoggedIn(cfg, s, s') && s'.log == s.log + [CheckingOut(p, a, outcome)] && Unused(s.db, p)
    ensures SettledAs(cfg, s.db, s'.db, p, a, outcome)
  {
    assert s'.log[|s'.log| - 1] == CheckingOut(p, a, outcome);
    PlacedAs(cfg, ShopOf(s), a, p);
  }

  lemma PlacedAs(cfg: Config, s: Shop.State, a: Attempt, id: OrderId)
    requires Unused(s.db, id)
    ensures Shop.Step(cfg, s, Shop.Place(a, id)).db == AfterCheckout(cfg, s.db, a, id)
  {
  }

  lemma UnderwayStep(cfg: Config, s0: State, s: State, p: Process, a: Attempt, e: Event)
    requires Ready(cfg, s0, s, p, a) && InsideEvent(e, p)
    ensures Ready(cfg, s0, Step(cfg, s, e), p, a)
  {
    ProtocolLaws.StepKeeps(cfg, s, e);
    InsideStep(cfg, s, p, e);
    ReadyOn(cfg, s0, s, Step(cfg, s, e), p, a);
  }

  lemma InsideStep(cfg: Config, s: State, p: Process, e: Event)
    requires p in s.procs && InsideEvent(e, p)
    ensures OwnStep(s, Step(cfg, s, e), p)
    ensures Over(s.procs[p].phase) ==> Step(cfg, s, e) == s
  {
    StepOfProcess(cfg, s, e);
    InsideIsOwn(cfg, s, p, e);
  }

  lemma ReadyOn(cfg: Config, s0: State, s: State, s': State, p: Process, a: Attempt)
    requires Ready(cfg, s0, s, p, a) && ProtocolLaws.Good(cfg, s, s') && OwnStep(s, s', p)
    requires s.procs[p].phase.Ended? ==> s' == s
    ensures Ready(cfg, s0, s', p, a)
  {
    if !s.procs[p].phase.Ended? {
      assert ProcOk(cfg, s.db, p, s.procs[p]);
      if s'.log != s.log {
        SettlesRight(cfg, s, s', p, a, s'.procs[p].phase.outcome);
      }
      StaysUnderway(cfg, s0, s, s', p, a);
    }
  }

  lemma StaysUnderway(cfg: Config, s0: State, s: State, s': State, p: Process, a: Attempt)
    requires Underway(cfg, s0, s, p, a) && !s.procs[p].phase.Ended?
    requires OwnStep(s, s', p)
    requires s'.log != s.log && s'.procs[p].phase.Ended? ==> SettledAs(cfg, s.db, s'.db, p, a, s'.procs[p].phase.outcome)
    ensures Underway(cfg, s0, s', p, a)
  {
    assert s0.procs[p := Proc(a, s.procs[p].phase)][p := s'.procs[p]] == s0.procs[p := s'.procs[p]];
  }

  // ------------------------------------------------------- stage after stage

  lemma LockStage(cfg: Config, s: State, p: Process)
    requires NoneOpen(s, p) && p in s.procs && s.procs[p].phase.Locked?
    ensures var s' := Step(cfg, s, LockCart(p));
            p in s'.procs && (s'.procs[p].phase.Ended?
                              || (s'.procs[p].phase.CartHeld? && s'.procs[p].phase.cart.items == s.db.carts[s.procs[p].attempt.cart].items
                                  && Owned(s.db.carts, s.procs[p].attempt.tenant, s.procs[p].attempt.cart)))
  {
    assert CartFree(s, p, s.procs[p].attempt.cart);
  }

  lemma ValidateStage(cfg: Config, s: State, p: Process)
    requires NoneOpen(s, p) && p in s.procs && s.procs[p].phase.CartHeld?
    ensures var s' := Step(cfg, s, Validate(p));
            p in s'.procs && (s'.procs[p].phase.Ended?
                              || (s'.procs[p].phase.Taking? && s'.procs[p].phase.n == 0
                                  && s'.procs[p].phase.cart.items == s.procs[p].phase.cart.items))
  {
    assert CouponsFree(s, p, s.procs[p].phase.cart.applied);
  }

  lemma TakeStage(cfg: Config, s: State, p: Process)
    requires NoneOpen(s, p) && p in s.procs && s.procs[p].phase.Taking? && s.procs[p].phase.n < |s.procs[p].phase.cart.items|
    ensures var s' := Step(cfg, s, Take(p));
            p in s'.procs && (s'.procs[p].phase.Ended?
                              || (s'.procs[p].phase.Taking? && s'.procs[p].phase.n == s.procs[p].phase.n + 1
                                  && s'.procs[p].phase.cart == s.procs[p].phase.cart))
  {
    assert ProductFree(s, p, s.procs[p].phase.cart.items[s.procs[p].phase.n].product);
  }

  lemma InsertStage(cfg: Config, s: State, p: Process)
    requires NoneOpen(s, p) && p in s.procs && s.procs[p].phase.CartMarked?
    ensures var s' := Step(cfg, s, InsertRecord(p)); p in s'.procs && (s'.procs[p].phase.Ended? || s'.procs[p].phase.KeyHeld?)
  {
    assert KeyFree(s, p, s.procs[p].attempt.tenant, s.procs[p].attempt.key);
  }

  lemma CommitStage(cfg: Config, s: State, p: Process)
    requires p in s.procs && s.procs[p].phase.KeyHeld? && ProcOk(cfg, s.db, p, s.procs[p])
    ensures var s' := Step(cfg, s, Commit(p)); p in s'.procs && s'.procs[p].phase.Ended?
  {
    MethodIsKnown(cfg, s.db, p, s.procs[p]);
  }

  lemma MethodIsKnown(cfg: Config, db: Db, p: Process, proc: Proc)
    requires proc.phase.KeyHeld? && ProcOk(cfg, db, p, proc)
    ensures proc.attempt.paymentMethod in db.methods
  {
  }

  // ------------------------------------------------------------- whole calls

  function Takes(p: Process, n: nat): seq<Event>
  {
    Runs.Repeat(Take(p), n)
  }

  /** The steps of a transaction with room for n items. */
  function Inside(p: Process, n: nat): seq<Event>
  {
    [LockCart(p), Validate(p)] + Takes(p, n) + [MarkCart(p), InsertRecord(p), Commit(p)]
  }

  /** The steps of one call that nobody interrupts. */
  function Call(p: Process, a: Attempt, n: nat): seq<Event>
  {
    [Start(p, a), ReadRecord(p), ReadSentinel(p), Mark(p), TakeLock(p)] + Inside(p, n) + [Release(p), Clear(p)]
  }

  ghost function Stepper(cfg: Config): (State, Event) -> State
  {
    (s, e) => Step(cfg, s, e)
  }

  lemma {:induction false} RunIsFold(cfg: Config, s: State, es: seq<Event>)
    ensures Run(cfg, s, es) == Runs.Fold(Stepper(cfg), s, es)
  {
    if es != [] {
      RunIsFold(cfg, s, es[..|es| - 1]);
    }
  }

  lemma RunSnoc(cfg: Config, s: State, es: seq<Event>, e: Event)
    ensures Run(cfg, s, es + [e]) == Step(cfg, Run(cfg, s, es), e)
  {
    assert (es + [e])[..|es|] == es;
  }

  lemma RunCat(cfg: Config, s: State, xs: seq<Event>, ys: seq<Event>)
    ensures Run(cfg, s, xs + ys) == Run(cfg, Run(cfg, s, xs), ys)
  {
    RunIsFold(cfg, s, xs + ys);
    RunIsFold(cfg, s, xs);
    RunIsFold(cfg, Run(cfg, s, xs), ys);
    Runs.FoldCat(Stepper(cfg), s, xs, ys);
  }

  /** The phase of p once it has taken up to k items, or has been refused. */
  ghost predicate TakenUpTo(s: State, p: Process, items: seq<Item>, k: nat)
  {
    p in s.procs && (s.procs[p].phase.Ended?
                     || (s.procs[p].phase.Taking? && s.procs[p].phase.cart.items == items
                         && s.procs[p].phase.n == if k <= |items| then k else |items|))
  }

  /** After k takes, p is ready and has taken up to k items. */
  ghost function TakesDone(cfg: Config, s0: State, p: Process, a: Attempt, items: seq<Item>): (State, nat) -> bool
  {
    (s: State, k: nat) => Ready(cfg, s0, s, p, a) && TakenUpTo(s, p, items, k)
  }

  lemma RunTakes(cfg: Config, s: State, p: Process, k: nat)
    ensures Run(cfg, s, Takes(p, k)) == Runs.Times(Stepper(cfg), Take(p), s, k)
  {
    RunIsFold(cfg, s, Takes(p, k));
    Runs.FoldRepeat(Stepper(cfg), Take(p), s, k);
  }

  lemma TakesAreTaken(cfg: Config, s0: State, s: State, p: Process, a: Attempt, items: seq<Item>, k: nat)
    requires TakesDone(cfg, s0, p, a, items)(s, 0) && NoneOpen(s0, p)
    ensures TakesDone(cfg, s0, p, a, items)(Run(cfg, s, Takes(p, k)), k)
  {
    var reached := TakesDone(cfg, s0, p, a, items);
    forall t: State, j: nat | reached(t, j) ensures reached(Stepper(cfg)(t, Take(p)), j + 1) {
      ReadyTake(cfg, s0, t, p, a, items, j);
    }
    Runs.TimesReach(Stepper(cfg), Take(p), reached, s, k);
    RunTakes(cfg, s, p, k);
  }

  lemma ReadyTake(cfg: Config, s0: State, s: State, p: Process, a: Attempt, items: seq<Item>, k: nat)
    requires TakesDone(cfg, s0, p, a, items)(s, k) && NoneOpen(s0, p)
    ensures TakesDone(cfg, s0, p, a, items)(Stepper(cfg)(s, Take(p)), k + 1)
  {
    UnderwayStep(cfg, s0, s, p, a, Take(p));
    NoneOpenStays(cfg, s0, s, p, a);
    OneMoreTake(cfg, s, p, items, k);
  }

  lemma OneMoreTake(cfg: Config, s: State, p: Process, items: seq<Item>, k: nat)
    requires NoneOpen(s, p) && TakenUpTo(s, p, items, k)
    ensures TakenUpTo(Step(cfg, s, Take(p)), p, items, k + 1)
  {
    if s.procs[p].phase.Taking? && k < |items| {
      TakeStage(cfg, s, p);
    }
  }

  /** From the Redis lock to the end of the transaction: the call has settled as the one-instant checkout does. */
  lemma InsideSettles(cfg: Config, s: State, p: Process, a: Attempt, n: nat)
    requires Inv(cfg, s) && NoneOpen(s, p) && At(s, p, Locked) && s.procs[p].attempt == a
    requires Owned(s.db.carts, a.tenant, a.cart) ==> |s.db.carts[a.cart].items| <= n
    ensures var s' := Run(cfg, s, Inside(p, n)); Ready(cfg, s, s', p, a) && s'.procs[p].phase.Ended?
  {
    assert s.procs == s.procs[p := Proc(a, Locked)];
    var s1 := Step(cfg, s, LockCart(p));
    UnderwayStep(cfg, s, s, p, a, LockCart(p));
    LockStage(cfg, s, p);
    var s2 := Step(cfg, s1, Validate(p));
    UnderwayStep(cfg, s, s1, p, a, Validate(p));
    NoneOpenStays(cfg, s, s1, p, a);
    ValidateReached(cfg, s1, p, if s1.procs[p].phase.CartHeld? then s1.procs[p].phase.cart.items else []);
    var items := if s2.procs[p].phase.Taking? then s2.procs[p].phase.cart.items else [];
    TakesAreTaken(cfg, s, s2, p, a, items, n);
    LastThree(cfg, s, Run(cfg, s2, Takes(p, n)), p, a, items, n);
    RunInside(cfg, s, p, n);
  }

  lemma ValidateReached(cfg: Config, s: State, p: Process, items: seq<Item>)
    requires NoneOpen(s, p) && p in s.procs
    requires s.procs[p].phase.Ended? || (s.procs[p].phase.CartHeld? && s.procs[p].phase.cart.items == items)
    ensures TakenUpTo(Step(cfg, s, Validate(p)), p, items, 0)
  {
    if s.procs[p].phase.CartHeld? {
      ValidateStage(cfg, s, p);
    }
  }

  lemma LastThree(cfg: Config, s0: State, s: State, p: Process, a: Attempt, items: seq<Item>, n: nat)
    requires Ready(cfg, s0, s, p, a) && NoneOpen(s0, p) && TakenUpTo(s, p, items, n) && |items| <= n
    ensures var s' := Step(cfg, Step(cfg, Step(cfg, s, MarkCart(p)), InsertRecord(p)), Commit(p));
            Ready(cfg, s0, s', p, a) && s'.procs[p].phase.Ended?
  {
    var s1 := Step(cfg, s, MarkCart(p));
    UnderwayStep(cfg, s0, s, p, a, MarkCart(p));
    MarkReached(cfg, s, p);
    var s2 := Step(cfg, s1, InsertRecord(p));
    UnderwayStep(cfg, s0, s1, p, a, InsertRecord(p));
    NoneOpenStays(cfg, s0, s1, p, a);
    InsertReached(cfg, s1, p);
    UnderwayStep(cfg, s0, s2, p, a, Commit(p));
    CommitReached(cfg, s2, p);
  }

  lemma MarkReached(cfg: Config, s: State, p: Process)
    requires p in s.procs
    requires s.procs[p].phase.Ended? || (s.procs[p].phase.Taking? && s.procs[p].phase.n >= |s.procs[p].phase.cart.items|)
    ensures var s' := Step(cfg, s, MarkCart(p)); p in s'.procs && (s'.procs[p].phase.Ended? || s'.procs[p].phase.CartMarked?)
  {
  }

  lemma InsertReached(cfg: Config, s: State, p: Process)
    requires NoneOpen(s, p) && p in s.procs && (s.procs[p].phase.Ended? || s.procs[p].phase.CartMarked?)
    ensures var s' := Step(cfg, s, InsertRecord(p)); p in s'.procs && (s'.procs[p].phase.Ended? || s'.procs[p].phase.KeyHeld?)
  {
    if s.procs[p].phase.CartMarked? {
      InsertStage(cfg, s, p);
    }
  }

  lemma CommitReached(cfg: Config, s: State, p: Process)
    requires Inv(cfg, s) && p in s.procs && (s.procs[p].phase.Ended? || s.procs[p].phase.KeyHeld?)
    ensures var s' := Step(cfg, s, Commit(p)); p in s'.procs && s'.procs[p].phase.Ended?
  {
    if s.procs[p].phase.KeyHeld? {
      CommitStage(cfg, s, p);
    }
  }

  lemma RunInside(cfg: Config, s: State, p: Process, n: nat)
    ensures var s2 := Run(cfg, Step(cfg, Step(cfg, s, LockCart(p)), Validate(p)), Takes(p, n));
            Run(cfg, s, Inside(p, n)) == Step(cfg, Step(cfg, Step(cfg, s2, MarkCart(p)), InsertRecord(p)), Commit(p))
  {
    var s1 := Step(cfg, Step(cfg, s, LockCart(p)), Validate(p));
    RunIsFold(cfg, s, Inside(p, n));
    RunIsFold(cfg, s1, Takes(p, n));
    Runs.FoldBetween(Stepper(cfg), s, LockCart(p), Validate(p), Takes(p, n), MarkCart(p), InsertRecord(p), Commit(p));
  }

  // ------------------------------------------------- before and after the lock

  predicate KeysFree(s: State, a: Attempt)
  {
    (a.tenant, a.key) !in s.sentinels && (a.tenant, a.cart) !in s.locks
  }

  /** The process holds its two Redis keys and nothing else. */
  function WithKeys(s: State, p: Process, a: Attempt, phase: Phase): State
  {
    s.(procs := s.procs[p := Proc(a, phase)],
       sentinels := s.sentinels + {(a.tenant, a.key)}, locks := s.locks[(a.tenant, a.cart) := p])
  }

  lemma FirstTwo(cfg: Config, s: State, p: Process, a: Attempt)
    requires Fresh(s, p)
    ensures var decided := RecordDecides(s.db.records, a.tenant, a.key, a.hash);
            Step(cfg, Step(cfg, s, Start(p, a)), ReadRecord(p))
            == s.(procs := s.procs[p := Proc(a, if decided.Some? then Returned(DecidedResult(decided.value)) else NoRecord)])
  {
  }

  lemma NextThree(cfg: Config, s: State, p: Process, a: Attempt)
    requires p in s.procs && s.procs[p] == Proc(a, NoRecord) && KeysFree(s, a)
    ensures Step(cfg, Step(cfg, Step(cfg, s, ReadSentinel(p)), Mark(p)), TakeLock(p)) == WithKeys(s, p, a, Locked)
  {
    var s1 := Step(cfg, s, ReadSentinel(p));
    assert s1 == s.(procs := s.procs[p := Proc(a, NoSentinel)]);
    var s2 := Step(cfg, s1, Mark(p));
    assert s2.procs == s.procs[p := Proc(a, Marked)];
  }

  lemma LastTwo(cfg: Config, s0: State, s: State, p: Process, a: Attempt, outcome: Outcome)
    requires p in s.procs && s.procs[p] == Proc(a, Ended(outcome)) && KeysFree(s0, a)
    requires s.sentinels == s0.sentinels + {(a.tenant, a.key)} && s.locks == s0.locks[(a.tenant, a.cart) := p]
    ensures var s' := Step(cfg, Step(cfg, s, Release(p)), Clear(p));
            && s'.db == s.db && s'.sentinels == s0.sentinels && s'.locks == s0.locks && OthersStay(s, s')
            && s'.procs == s.procs[p := Proc(a, Returned(outcome))]
  {
    assert s.locks - {(a.tenant, a.cart)} == s0.locks;
    assert s.sentinels - {(a.tenant, a.key)} == s0.sentinels;
  }

  /** A step of a call after its first two. */
  predicate LaterEvent(e: Event, p: Process)
  {
    InsideEvent(e, p) || e == ReadSentinel(p) || e == Mark(p) || e == TakeLock(p) || e == Release(p) || e == Clear(p)
  }

  lemma ReturnedStays(cfg: Config, s: State, p: Process, e: Event)
    requires p in s.procs && s.procs[p].phase.Returned? && LaterEvent(e, p)
    ensures Step(cfg, s, e) == s
  {
    if InsideEvent(e, p) {
      InsideStep(cfg, s, p, e);
    } else {
      StepOfProcess(cfg, s, e);
      NothingLeft(cfg, s, p, e);
    }
  }

  lemma NothingLeft(cfg: Config, s: State, p: Process, e: Event)
    requires p in s.procs && s.procs[p].phase.Returned? && LaterEvent(e, p) && !InsideEvent(e, p)
    ensures ProcessStep(cfg, s, e) == s
  {
  }

  /** A process that has returned takes no further step. */
  lemma {:induction false} ReturnedIsFinal(cfg: Config, s: State, p: Process, es: seq<Event>)
    requires p in s.procs && s.procs[p].phase.Returned?
    requires forall i :: 0 <= i < |es| ==> LaterEvent(es[i], p)
    ensures Run(cfg, s, es) == s
  {
    if es != [] {
      ReturnedIsFinal(cfg, s, p, es[..|es| - 1]);
      ReturnedStays(cfg, s, p, es[|es| - 1]);
    }
  }

  lemma {:induction false} InsideEvents(p: Process, n: nat)
    ensures forall i :: 0 <= i < |Takes(p, n)| ==> Takes(p, n)[i] == Take(p)
    ensures forall i :: 0 <= i < |Inside(p, n)| ==> InsideEvent(Inside(p, n)[i], p)
  {
    if n > 0 {
      InsideEvents(p, n - 1);
      assert Takes(p, n) == Takes(p, n - 1) + [Take(p)];
    }
  }

  /** What a call at a quiet moment returns: the recorded answer of its key, or that of the one-instant checkout. */
  ghost predicate CallSettled(cfg: Config, s: State, s': State, p: Process, a: Attempt)
  {
    && p in s'.procs && s'.procs == s.procs[p := Proc(a, s'.procs[p].phase)] && s'.procs[p].phase.Returned?
    && s'.sentinels == s.sentinels && s'.locks == s.locks && OthersStay(s, s')
    && var decided := RecordDecides(s.db.records, a.tenant, a.key, a.hash);
       var outcome := s'.procs[p].phase.outcome;
       if decided.Some? then s'.db == s.db && outcome == DecidedResult(decided.value)
       else SettledAs(cfg, s.db, s'.db, p, a, outcome)
  }

  predicate Fresh(s: State, p: Process)
  {
    p !in s.procs && p !in s.db.orders && p !in s.db.payments
  }

  /**
   Whatever other calls have done before, a call that finds its Redis keys free and no transaction open
   is answered: with the recorded result of its key, or as the one-instant checkout would be; and it
   leaves no key behind.
   */
  lemma QuietCallIsAnswered(cfg: Config, s: State, p: Process, a: Attempt, n: nat)
    requires Inv(cfg, s) && Fresh(s, p)
    requires NoneOpen(s, p) && KeysFree(s, a)
    requires Owned(s.db.carts, a.tenant, a.cart) ==> |s.db.carts[a.cart].items| <= n
    ensures CallSettled(cfg, s, Run(cfg, s, Call(p, a, n)), p, a)
  {
    var s2 := Step(cfg, Step(cfg, s, Start(p, a)), ReadRecord(p));
    FirstTwo(cfg, s, p, a);
    RunCall(cfg, s, p, a, n);
    if RecordDecides(s.db.records, a.tenant, a.key, a.hash).Some? {
      DecidedAtOnce(cfg, s, s2, p, a, n);
    } else {
      RestIsAnswered(cfg, s, s2, p, a, n);
    }
  }

  /** The steps of a call after its first two. */
  function Rest(p: Process, n: nat): seq<Event>
  {
    [ReadSentinel(p), Mark(p), TakeLock(p)] + Inside(p, n) + [Release(p), Clear(p)]
  }

  lemma RunCall(cfg: Config, s: State, p: Process, a: Attempt, n: nat)
    ensures Run(cfg, s, Call(p, a, n)) == Run(cfg, Step(cfg, Step(cfg, s, Start(p, a)), ReadRecord(p)), Rest(p, n))
  {
    RunTwo(cfg, s, p, a);
    RunCat(cfg, s, [Start(p, a), ReadRecord(p)], Rest(p, n));
    assert Call(p, a, n) == [Start(p, a), ReadRecord(p)] + Rest(p, n);
  }

  lemma RunTwo(cfg: Config, s: State, p: Process, a: Attempt)
    ensures Run(cfg, s, [Start(p, a), ReadRecord(p)]) == Step(cfg, Step(cfg, s, Start(p, a)), ReadRecord(p))
  {
    RunIsFold(cfg, s, [Start(p, a), ReadRecord(p)]);
    Runs.FoldTwo(Stepper(cfg), s, Start(p, a), ReadRecord(p));
  }

  lemma DecidedAtOnce(cfg: Config, s: State, s2: State, p: Process, a: Attempt, n: nat)
    requires RecordDecides(s.db.records, a.tenant, a.key, a.hash).Some?
    requires s2 == s.(procs := s.procs[p := Proc(a, Returned(DecidedResult(RecordDecides(s.db.records, a.tenant, a.key, a.hash).value)))])
    ensures CallSettled(cfg, s, Run(cfg, s2, Rest(p, n)), p, a)
  {
    InsideEvents(p, n);
    ReturnedIsFinal(cfg, s2, p, Rest(p, n));
  }

  lemma RestIsAnswered(cfg: Config, s: State, s2: State, p: Process, a: Attempt, n: nat)
    requires Inv(cfg, s) && Fresh(s, p)
    requires NoneOpen(s, p) && KeysFree(s, a)
    requires Owned(s.db.carts, a.tenant, a.cart) ==> |s.db.carts[a.cart].items| <= n
    requires s2 == s.(procs := s.procs[p := Proc(a, NoRecord)])
    requires RecordDecides(s.db.records, a.tenant, a.key, a.hash).None?
    ensures CallSettled(cfg, s, Run(cfg, s2, Rest(p, n)), p, a)
  {
    LockedThen(cfg, s, s2, p, a, n);
    LockedSettles(cfg, s, p, a, n);
    AfterLock(cfg, s, Run(cfg, WithKeys(s, p, a, Locked), Inside(p, n)), p, a);
  }

  /** Three steps to the lock, the transaction, and two steps to the end. */
  lemma LockedThen(cfg: Config, s: State, s2: State, p: Process, a: Attempt, n: nat)
    requires s2 == s.(procs := s.procs[p := Proc(a, NoRecord)]) && KeysFree(s, a)
    ensures Run(cfg, s2, Rest(p, n))
         == Step(cfg, Step(cfg, Run(cfg, WithKeys(s, p, a, Locked), Inside(p, n)), Release(p)), Clear(p))
  {
    NextThree(cfg, s2, p, a);
    assert WithKeys(s2, p, a, Locked) == WithKeys(s, p, a, Locked);
    RunAround(cfg, s2, p, Inside(p, n));
  }

  lemma LockedSettles(cfg: Config, s: State, p: Process, a: Attempt, n: nat)
    requires Inv(cfg, s) && Fresh(s, p) && NoneOpen(s, p)
    requires Owned(s.db.carts, a.tenant, a.cart) ==> |s.db.carts[a.cart].items| <= n
    ensures var s6 := Run(cfg, WithKeys(s, p, a, Locked), Inside(p, n));
            Underway(cfg, WithKeys(s, p, a, Locked), s6, p, a) && s6.procs[p].phase.Ended?
  {
    LockedKeepsInv(cfg, s, p, a);
    InsideSettles(cfg, WithKeys(s, p, a, Locked), p, a, n);
  }

  /** The lock is released and the sentinel cleared, and nothing else happens. */
  lemma AfterLock(cfg: Config, s: State, s6: State, p: Process, a: Attempt)
    requires Underway(cfg, WithKeys(s, p, a, Locked), s6, p, a) && s6.procs[p].phase.Ended? && KeysFree(s, a)
    requires RecordDecides(s.db.records, a.tenant, a.key, a.hash).None?
    ensures CallSettled(cfg, s, Step(cfg, Step(cfg, s6, Release(p)), Clear(p)), p, a)
  {
    LastTwo(cfg, s, s6, p, a, s6.procs[p].phase.outcome);
  }

  lemma LockedKeepsInv(cfg: Config, s: State, p: Process, a: Attempt)
    requires Inv(cfg, s) && Fresh(s, p)
    ensures Inv(cfg, WithKeys(s, p, a, Locked))
  {
    StartKeeps(cfg, s, p, a);
    MovedWithin(cfg, s.(procs := s.procs[p := Proc(a, Arrived)]), p, Locked);
    assert WithKeys(s, p, a, Locked).procs == To(s.(procs := s.procs[p := Proc(a, Arrived)]), p, Locked).procs;
  }

  /** Before the lock, a part under it, and after it. */
  lemma RunAround(cfg: Config, s: State, p: Process, middle: seq<Event>)
    ensures var s3 := Step(cfg, Step(cfg, Step(cfg, s, ReadSentinel(p)), Mark(p)), TakeLock(p));
            Run(cfg, s, [ReadSentinel(p), Mark(p), TakeLock(p)] + middle + [Release(p), Clear(p)])
            == Step(cfg, Step(cfg, Run(cfg, s3, middle), Release(p)), Clear(p))
  {
    var s3 := Step(cfg, Step(cfg, Step(cfg, s, ReadSentinel(p)), Mark(p)), TakeLock(p));
    RunIsFold(cfg, s, [ReadSentinel(p), Mark(p), TakeLock(p)] + middle + [Release(p), Clear(p)]);
    RunIsFold(cfg, s3, middle);
    Runs.FoldAround(Stepper(cfg), s, ReadSentinel(p), Mark(p), TakeLock(p), middle, Release(p), Clear(p));
  }

  // ------------------------------------------------------- the racing retry

  /** What a retry does after it has looked for a record. */
  function Resumed(q: Process): seq<Event>
  {
    [ReadSentinel(q), Mark(q), TakeLock(q)] + [LockCart(q)] + [Release(q), Clear(q)]
  }

  lemma ResumedIsRefused(cfg: Config, s: State, q: Process, a: Attempt)
    requires q in s.procs && s.procs[q] == Proc(a, NoRecord) && KeysFree(s, a) && NoneOpen(s, q)
    requires Owned(s.db.carts, a.tenant, a.cart) && s.db.carts[a.cart].status == CheckedOut
    ensures Answered(Run(cfg, s, Resumed(q)), q, Err(CartAlreadyCheckedOut))
  {
    var locked := WithKeys(s, q, a, Locked);
    NextThree(cfg, s, q, a);
    assert CartFree(locked, q, a.cart);
    var refused := Refuse(locked, q, CartAlreadyCheckedOut);
    assert Step(cfg, locked, LockCart(q)) == refused;
    RunSnoc(cfg, locked, [], LockCart(q));
    assert [] + [LockCart(q)] == [LockCart(q)];
    LastTwo(cfg, s, refused, q, a, Err(CartAlreadyCheckedOut));
    RunAround(cfg, s, q, [LockCart(q)]);
  }

  /**
   The two reads of the replay check are not one: a retry q of the same request that has looked for the
   record just before the first call commits it is told that the cart is checked out, not given the result.
   */
  lemma RacingRetryIsNotReplayed(cfg: Config, s: State, p: Process, q: Process, a: Attempt, n: nat)
    requires Inv(cfg, s) && q in s.procs && s.procs[q] == Proc(a, NoRecord)
    requires Fresh(s, p)
    requires NoneOpen(s, p) && KeysFree(s, a)
    requires RecordDecides(s.db.records, a.tenant, a.key, a.hash).None?
    requires Atomic(cfg.rules, s.db, a, p).Ok? && |s.db.carts[a.cart].items| <= n
    ensures var committed := Run(cfg, s, Call(p, a, n));
            && p in committed.procs && committed.procs[p].phase.Returned? && committed.procs[p].phase.outcome.Ok?
            && Answered(Run(cfg, committed, Resumed(q)), q, Err(CartAlreadyCheckedOut))
  {
    QuietCallIsAnswered(cfg, s, p, a, n);
    CommittedLeaves(cfg, s, Run(cfg, s, Call(p, a, n)), p, q, a);
    ResumedIsRefused(cfg, Run(cfg, s, Call(p, a, n)), q, a);
  }

  /** What the first call leaves for the retry that has already looked. */
  lemma CommittedLeaves(cfg: Config, s: State, committed: State, p: Process, q: Process, a: Attempt)
    requires p !in s.procs && q in s.procs && s.procs[q] == Proc(a, NoRecord) && NoneOpen(s, p) && KeysFree(s, a)
    requires RecordDecides(s.db.records, a.tenant, a.key, a.hash).None? && Atomic(cfg.rules, s.db, a, p).Ok?
    requires CallSettled(cfg, s, committed, p, a)
    ensures committed.procs[p].phase.outcome.Ok?
    ensures q in committed.procs && committed.procs[q] == Proc(a, NoRecord)
    ensures KeysFree(committed, a) && NoneOpen(committed, q)
    ensures Owned(committed.db.carts, a.tenant, a.cart) && committed.db.carts[a.cart].status == CheckedOut
  {
    ChecksOut(cfg, s.db, a, p);
  }

  lemma ChecksOut(cfg: Config, db: Db, a: Attempt, id: OrderId)
    requires Atomic(cfg.rules, db, a, id).Ok?
    ensures var db' := Atomic(cfg.rules, db, a, id).value;
            Owned(db'.carts, a.tenant, a.cart) && db'.carts[a.cart].status == CheckedOut
  {
  }

  // ------------------------------------------------- the unfenced sentinel

  function KeyOf(a: Attempt): (TenantId, Key)
  {
    (a.tenant, a.key)
  }

  /** A call up to the moment at which it has set its sentinel. */
  function Arriving(p: Process, a: Attempt): seq<Event>
  {
    [Start(p, a), ReadRecord(p), ReadSentinel(p), Mark(p)]
  }

  lemma ArrivingMarks(cfg: Config, s: State, p: Process, a: Attempt)
    requires Fresh(s, p) && RecordDecides(s.db.records, a.tenant, a.key, a.hash).None? && KeyOf(a) !in s.sentinels
    ensures Run(cfg, s, Arriving(p, a)) == s.(procs := s.procs[p := Proc(a, Marked)], sentinels := s.sentinels + {KeyOf(a)})
  {
    var s2 := Step(cfg, Step(cfg, s, Start(p, a)), ReadRecord(p));
    RunIsFold(cfg, s, Arriving(p, a));
    Runs.FoldFour(Stepper(cfg), s, Start(p, a), ReadRecord(p), ReadSentinel(p), Mark(p));
    FirstTwo(cfg, s, p, a);
    LookAndMark(cfg, s, s2, p, a);
  }

  lemma LookAndMark(cfg: Config, s: State, s2: State, p: Process, a: Attempt)
    requires s2 == s.(procs := s.procs[p := Proc(a, NoRecord)]) && KeyOf(a) !in s.sentinels
    ensures Step(cfg, Step(cfg, s2, ReadSentinel(p)), Mark(p))
         == s.(procs := s.procs[p := Proc(a, Marked)], sentinels := s.sentinels + {KeyOf(a)})
  {
    var s3 := Step(cfg, s2, ReadSentinel(p));
    assert s3 == s.(procs := s.procs[p := Proc(a, NoSentinel)]);
    assert Step(cfg, s3, Mark(p)).procs == s.procs[p := Proc(a, Marked)];
  }

  /** p sets its sentinel and loses it, q sets its own for the same key, and p gives up for want of Redis. */
  function Overtaken(p: Process, q: Process, a: Attempt, b: Attempt): seq<Event>
  {
    Arriving(p, a) + [LoseSentinel(a.tenant, a.key)] + Arriving(q, b) + [RedisFails(p, false)]
  }

  /** Two calls of one key, the first about to clear a sentinel that is by now the second's. */
  ghost predicate BothMarked(s: State, s': State, p: Process, q: Process, a: Attempt, b: Attempt)
  {
    && p in s'.procs && s'.procs[p] == Proc(a, Unlocked(Err(RedisUnavailable)))
    && q in s'.procs && s'.procs[q] == Proc(b, Marked)
    && s'.sentinels == s.sentinels + {KeyOf(b)}
  }

  lemma OvertakenMarks(cfg: Config, s: State, p: Process, q: Process, a: Attempt, b: Attempt)
    requires p != q && Fresh(s, p) && Fresh(s, q) && KeyOf(a) == KeyOf(b) && KeyOf(a) !in s.sentinels
    requires RecordDecides(s.db.records, a.tenant, a.key, a.hash).None? && RecordDecides(s.db.records, b.tenant, b.key, b.hash).None?
    ensures BothMarked(s, Run(cfg, s, Overtaken(p, q, a, b)), p, q, a, b)
  {
    var lost := s.(procs := s.procs[p := Proc(a, Marked)]);
    ArrivingMarks(cfg, s, p, a);
    RunSnoc(cfg, s, Arriving(p, a), LoseSentinel(a.tenant, a.key));
    LostAgain(cfg, s, p, a);
    ArrivingMarks(cfg, lost, q, b);
    RunCat(cfg, s, Arriving(p, a) + [LoseSentinel(a.tenant, a.key)], Arriving(q, b));
    RunSnoc(cfg, s, Arriving(p, a) + [LoseSentinel(a.tenant, a.key)] + Arriving(q, b), RedisFails(p, false));
    GivesUp(cfg, lost.(procs := lost.procs[q := Proc(b, Marked)], sentinels := s.sentinels + {KeyOf(b)}), p);
  }

  lemma LostAgain(cfg: Config, s: State, p: Process, a: Attempt)
    requires KeyOf(a) !in s.sentinels
    ensures Step(cfg, s.(procs := s.procs[p := Proc(a, Marked)], sentinels := s.sentinels + {KeyOf(a)}),
                 LoseSentinel(a.tenant, a.key))
         == s.(procs := s.procs[p := Proc(a, Marked)])
  {
    assert s.sentinels + {KeyOf(a)} - {KeyOf(a)} == s.sentinels;
  }

  lemma GivesUp(cfg: Config, s: State, p: Process)
    requires p in s.procs && s.procs[p].phase.Marked?
    ensures Step(cfg, s, RedisFails(p, false)) == To(s, p, Unlocked(Err(RedisUnavailable)))
  {
  }

  /**
   The sentinel has no fence: once p's own sentinel is lost, p's clearing removes the live sentinel of
   another call q of the key, so that a third call would find none.  No order is doubled by that, as
   ProtocolLaws.ExactlyOnceUnderFaultyRedis holds in every run.
   */
  lemma ClearRemovesAnothersSentinel(cfg: Config, s: State, p: Process, q: Process, a: Attempt, b: Attempt)
    requires p != q && Fresh(s, p) && Fresh(s, q) && KeyOf(a) == KeyOf(b) && KeyOf(a) !in s.sentinels
    requires RecordDecides(s.db.records, a.tenant, a.key, a.hash).None? && RecordDecides(s.db.records, b.tenant, b.key, b.hash).None?
    ensures var marked := Run(cfg, s, Overtaken(p, q, a, b));
            var cleared := Step(cfg, marked, Event.Clear(p));
            && At(marked, q, Marked) && KeyOf(b) in marked.sentinels
            && At(cleared, q, Marked) && KeyOf(b) !in cleared.sentinels
  {
    OvertakenMarks(cfg, s, p, q, a, b);
    ClearsAny(cfg, Run(cfg, s, Overtaken(p, q, a, b)), p, q);
  }

  lemma ClearsAny(cfg: Config, s: State, p: Process, q: Process)
    requires p != q && p in s.procs && q in s.procs && s.procs[p].phase.Unlocked?
    ensures var s' := Step(cfg, s, Event.Clear(p));
            && KeyOf(s.procs[p].attempt) !in s'.sentinels && q in s'.procs && s'.procs[q] == s.procs[q]
  {
  }

  // ------------------------------------------------ an application on its own

  /** Nobody but application w has a transaction open. */
  ghost predicate NobodyElse(s: State, w: Caller)
  {
    && (forall q :: q in s.procs ==> !InTransaction(s.procs[q].phase))
    && (forall v :: v in s.appliers && v != w ==> !CouponRace.Open(s.appliers[v].stage))
  }

  /** What application w has made of the shop since s. */
  ghost predicate AppliedAlone(s: State, s': State, w: Caller, l: Ledger, ap: CouponRace.Applier)
  {
    && s'.db == s.db.(carts := l.carts, coupons := l.coupons)
    && s'.appliers == s.appliers[w := ap] && s'.procs == s.procs
  }

  lemma AloneIsGranted(s: State, w: Caller, ap: CouponRace.Applier)
    requires NobodyElse(s, w)
    ensures Granted(s, w, ap)
  {
  }

  lemma StatementAlone(cfg: Config, s0: State, s: State, w: Caller, l: Ledger, ap: CouponRace.Applier, statement: CouponRace.Statement)
    requires NobodyElse(s0, w) && AppliedAlone(s0, s, w, l, ap)
    ensures var (l', ap') := CouponRace.After(cfg.rules, cfg.policy, s0.db.codes, l, ap, statement);
            AppliedAlone(s0, Step(cfg, s, CouponStep(w, statement)), w, l', ap')
  {
    StepOfCoupon(cfg, s, w, statement);
    NextAlone(s0, s, w, l, ap);
    MoveAlone(cfg, s0, s, w, l, ap, statement);
  }

  lemma NextAlone(s0: State, s: State, w: Caller, l: Ledger, ap: CouponRace.Applier)
    requires NobodyElse(s0, w) && AppliedAlone(s0, s, w, l, ap)
    ensures NobodyElse(s, w) && w in s.appliers && s.appliers[w] == ap && LedgerOf(s.db) == l && s.db.codes == s0.db.codes
  {
  }

  /** The application is at its next stage, and the ledger is as it left it. */
  lemma StageAlone(s0: State, s: State, s': State, w: Caller, l: Ledger, l': Ledger, ap: CouponRace.Applier, stage: CouponRace.Stage)
    requires AppliedAlone(s0, s, w, l, ap) && w in s.appliers && s.appliers[w] == ap
    requires s' == ToStage(s, w, stage).(db := s.db.(carts := l'.carts, coupons := l'.coupons), log := s'.log)
    ensures AppliedAlone(s0, s', w, l', ap.(stage := stage))
  {
    assert s0.appliers[w := ap][w := ap.(stage := stage)] == s0.appliers[w := ap.(stage := stage)];
  }

  lemma MoveAlone(cfg: Config, s0: State, s: State, w: Caller, l: Ledger, ap: CouponRace.Applier, statement: CouponRace.Statement)
    requires NobodyElse(s, w) && AppliedAlone(s0, s, w, l, ap)
    requires w in s.appliers && s.appliers[w] == ap && LedgerOf(s.db) == l && s.db.codes == s0.db.codes
    ensures var (l', ap') := CouponRace.After(cfg.rules, cfg.policy, s0.db.codes, l, ap, statement);
            AppliedAlone(s0, StepApply(cfg, s, w, statement), w, l', ap')
  {
    var move, s' := CouponRace.Next(cfg.rules, cfg.policy, s0.db.codes, l, ap, statement), StepApply(cfg, s, w, statement);
    if move.Go? {
      AloneIsGranted(s, w, ap.(stage := move.stage));
      StageAlone(s0, s, s', w, l, l, ap, move.stage);
    } else if move.Refuse? {
      StageAlone(s0, s, s', w, l, l, ap, CouponRace.Done(Some(move.error)));
    } else if move.CommitTo? {
      StageAlone(s0, s, s', w, l, move.ledger, ap, CouponRace.Done(None));
    }
  }

  function CouponSteps(w: Caller, statements: seq<CouponRace.Statement>): seq<Event>
  {
    if statements == [] then [] else [CouponStep(w, statements[0])] + CouponSteps(w, statements[1..])
  }

  lemma {:induction false} StatementsAlone(cfg: Config, s0: State, s: State, w: Caller, l: Ledger, ap: CouponRace.Applier,
                                           statements: seq<CouponRace.Statement>)
    requires NobodyElse(s0, w) && AppliedAlone(s0, s, w, l, ap)
    ensures var (l', ap') := CouponRace.AfterAll(cfg.rules, cfg.policy, s0.db.codes, l, ap, statements);
            AppliedAlone(s0, Run(cfg, s, CouponSteps(w, statements)), w, l', ap')
    decreases |statements|
  {
    if statements == [] {
      assert Run(cfg, s, []) == s;
    } else {
      var s1 := Step(cfg, s, CouponStep(w, statements[0]));
      var (l1, ap1) := CouponRace.After(cfg.rules, cfg.policy, s0.db.codes, l, ap, statements[0]);
      StatementAlone(cfg, s0, s, w, l, ap, statements[0]);
      StatementsAlone(cfg, s0, s1, w, l1, ap1, statements[1..]);
      RunCat(cfg, s, [CouponStep(w, statements[0])], CouponSteps(w, statements[1..]));
      RunOne(cfg, s, CouponStep(w, statements[0]));
    }
  }

  lemma RunOne(cfg: Config, s: State, e: Event)
    ensures Run(cfg, s, [e]) == Step(cfg, s, e)
  {
    RunSnoc(cfg, s, [], e);
    assert [] + [e] == [e];
  }

  /** A call that applies a coupon while nobody has a transaction open is answered as the one-instant application is. */
  lemma QuietApplicationIsAnswered(cfg: Config, s: State, w: Caller, r: CouponRace.Request)
    requires w !in s.appliers && NobodyElse(s, w)
    ensures var s' := Run(cfg, s, [StartApply(w, r)] + CouponSteps(w, CouponRace.Remaining(CouponRace.Asked)));
            match CouponRace.AtOnce(cfg.rules, cfg.policy, s.db.codes, LedgerOf(s.db), r)
            case Ok(l') => AppliedAlone(s, s', w, l', CouponRace.Applier(r, CouponRace.Done(None)))
            case Err(e) => AppliedAlone(s, s', w, LedgerOf(s.db), CouponRace.Applier(r, CouponRace.Done(Some(e))))
  {
    var asked := CouponRace.Applier(r, CouponRace.Asked);
    var s1 := Step(cfg, s, StartApply(w, r));
    RunCat(cfg, s, [StartApply(w, r)], CouponSteps(w, CouponRace.Remaining(CouponRace.Asked)));
    RunOne(cfg, s, StartApply(w, r));
    StatementsAlone(cfg, s, s1, w, LedgerOf(s.db), asked, CouponRace.Remaining(CouponRace.Asked));
    CouponRace.AloneIsAtOnce(cfg.rules, cfg.policy, s.db.codes, LedgerOf(s.db), asked);
  }

  /** An edit that meets no open transaction takes effect, with its effect at one instant; workers never wait. */
  lemma QuietEditsHappen(cfg: Config, s: State, w: Caller, e: Edit)
    requires NobodyElse(s, w) && (w in s.appliers ==> !CouponRace.Open(s.appliers[w].stage)) && !e.ApplyCoupon?
    ensures var s' := Step(cfg, s, EditCart(e)); s' == s.(db := AfterEdit(cfg, s.db, e), log := s.log + [Editing(e)])
  {
    StepOfEdit(cfg, s, e);
    assert EditFree(s, Edited(cfg, s.db.codes, LedgerOf(s.db), e));
  }

  lemma WorkersNeverWait(cfg: Config, s: State, e: Shop.Event)
    requires !e.Change? && !e.Place?
    ensures ShopOf(Step(cfg, s, Work(e))) == Shop.Step(cfg, ShopOf(s), e)
  {
    StepOfWork(cfg, s, e);
  }
}
