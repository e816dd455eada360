/**
 The log is what the callers saw: each transaction in it is that of one call, which returns what is
 logged; what is returned and not logged took no effect; and the log respects real time.
 */
module LogLaws {
  import opened Schema
  import opened CouponRules
  import opened Idempotency
  import opened Checkout
  import opened Sales
  import opened Protocol
  import opened ProtocolSteps
  import opened ProtocolLaws
  import CouponRace
  import Shop

  /** The call of a logged transaction has that outcome, or has died since. */
  predicate EntryOk(s: State, t: Txn)
  {
    match t
    case CheckingOut(p, a, outcome) =>
      p in s.procs && s.procs[p].attempt == a && (s.procs[p].phase.Dead? || HasOutcome(s.procs[p].phase, outcome))
    case Applying(w, r, refusal) => w in s.appliers && s.appliers[w] == CouponRace.Applier(r, CouponRace.Done(refusal))
    case _ => true
  }

  predicate SameCall(t: Txn, t': Txn)
  {
    || (t.CheckingOut? && t'.CheckingOut? && t.id == t'.id)
    || (t.Applying? && t'.Applying? && t.w == t'.w)
  }

  /** An answer that no transaction gave: turned away, aborted, or that of another call's order. */
  predicate Unlogged(p: Process, outcome: Outcome)
  {
    match outcome
    case Ok(r) => r.orderId != p
    case Err(e) =>
      || e == DatabaseAborted || e == LockNotAcquired || e == RedisUnavailable
      || e == IdempotencyInProgress || e == IdempotencyConflict
  }

  ghost predicate EntriesOk(s: State)
  {
    && (forall i :: 0 <= i < |s.log| ==> EntryOk(s, s.log[i]))
    && (forall i, j :: 0 <= i < j < |s.log| ==> !SameCall(s.log[i], s.log[j]))
  }

  /** What a call has to return was logged, or took no effect. */
  predicate AnswerOk(s: State, p: Process)
    requires p in s.procs
  {
    var phase := s.procs[p].phase;
    (phase.Ended? || phase.Unlocked? || phase.Returned?) ==>
      CheckingOut(p, s.procs[p].attempt, phase.outcome) in s.log || Unlogged(p, phase.outcome)
  }

  predicate VerdictOk(s: State, w: Caller)
    requires w in s.appliers
  {
    var ap := s.appliers[w];
    ap.stage.Done? ==> Applying(w, ap.request, ap.stage.refusal) in s.log
  }

  ghost predicate LogOk(s: State)
  {
    && EntriesOk(s)
    && (forall p :: p in s.procs ==> AnswerOk(s, p))
    && (forall w :: w in s.appliers ==> VerdictOk(s, w))
  }

  // ------------------------------------------------------------- one step

  /** A call that is turned away gets no result of its own. */
  lemma TurnedAwayIsUnlogged(cfg: Config, s: State, p: Process, outcome: Outcome)
    requires p in s.procs && ProcOk(cfg, s.db, p, s.procs[p]) && !Over(s.procs[p].phase)
    requires forall k :: k in s.db.records ==> Backed(s.db, k)
    requires TurnedAway(s, p, outcome)
    ensures Unlogged(p, outcome)
  {
    var k := (s.procs[p].attempt.tenant, s.procs[p].attempt.key);
    assert k in s.db.records ==> Backed(s.db, k);
  }

  /** The call of no entry is p. */
  predicate NotLogged(log: seq<Txn>, p: Process)
  {
    forall i :: 0 <= i < |log| ==> !(log[i].CheckingOut? && log[i].id == p)
  }

  lemma OpenIsNotLogged(s: State, p: Process)
    requires EntriesOk(s) && (p in s.procs ==> !Over(s.procs[p].phase))
    ensures NotLogged(s.log, p)
  {
    forall i | 0 <= i < |s.log| ensures !(s.log[i].CheckingOut? && s.log[i].id == p) {
      assert EntryOk(s, s.log[i]);
    }
  }

  lemma OpenIsNotApplied(s: State, w: Caller)
    requires EntriesOk(s) && (w in s.appliers ==> !s.appliers[w].stage.Done?)
    ensures forall i :: 0 <= i < |s.log| ==> !(s.log[i].Applying? && s.log[i].w == w)
  {
    forall i | 0 <= i < |s.log| ensures !(s.log[i].Applying? && s.log[i].w == w) {
      assert EntryOk(s, s.log[i]);
    }
  }

  /** The log grew by t, whose call is new to it. */
  lemma EntriesGrow(s: State, s': State, t: Txn)
    requires EntriesOk(s) && s'.log == s.log + [t]
    requires forall i :: 0 <= i < |s.log| ==> EntryOk(s', s.log[i]) && !SameCall(s.log[i], t)
    requires EntryOk(s', t)
    ensures EntriesOk(s')
  {
  }

  lemma QuietKeepsLog(cfg: Config, s: State, s': State, p: Process)
    requires Inv(cfg, s) && LogOk(s) && p in s.procs && QuietStep(s, s', p)
    ensures LogOk(s')
  {
    if s' != s {
      QuietKeepsEntries(s, s', p);
      assert AnswerOk(s, p);
      var phase := s'.procs[p].phase;
      if (phase.Ended? || phase.Unlocked? || phase.Returned?) && !HasOutcome(s.procs[p].phase, phase.outcome) {
        assert ProcOk(cfg, s.db, p, s.procs[p]);
        TurnedAwayIsUnlogged(cfg, s, p, phase.outcome);
      }
      AnswersStay(s, s', p);
    }
  }

  /** The other calls have the answers they had. */
  lemma AnswersStay(s: State, s': State, p: Process)
    requires LogOk(s) && p in s.procs && p in s'.procs && s'.procs == s.procs[p := s'.procs[p]]
    requires s.log <= s'.log && s'.appliers == s.appliers && AnswerOk(s', p)
    ensures forall q :: q in s'.procs ==> AnswerOk(s', q)
    ensures forall w :: w in s'.appliers ==> VerdictOk(s', w)
  {
    forall q | q in s'.procs && q != p ensures AnswerOk(s', q) {
      assert AnswerOk(s, q);
    }
    forall w | w in s'.appliers ensures VerdictOk(s', w) {
      assert VerdictOk(s, w);
    }
  }

  lemma QuietKeepsEntries(s: State, s': State, p: Process)
    requires EntriesOk(s) && p in s.procs && QuietStep(s, s', p)
    ensures EntriesOk(s')
  {
    forall i | 0 <= i < |s'.log| ensures EntryOk(s', s'.log[i]) {
      assert EntryOk(s, s.log[i]);
    }
  }

  lemma OwnKeepsLog(s: State, s': State, p: Process)
    requires LogOk(s) && p in s.procs && !Over(s.procs[p].phase) && OwnStep(s, s', p)
    ensures LogOk(s')
  {
    if s' != s {
      OpenIsNotLogged(s, p);
      forall i | 0 <= i < |s.log| ensures EntryOk(s', s.log[i]) {
        assert EntryOk(s, s.log[i]);
      }
      if s'.log != s.log {
        EntriesGrow(s, s', CheckingOut(p, s.procs[p].attempt, s'.procs[p].phase.outcome));
        assert s'.log[|s.log|] == CheckingOut(p, s.procs[p].attempt, s'.procs[p].phase.outcome);
      }
      AnswersStay(s, s', p);
    }
  }

  lemma ApplierKeepsLog(s: State, s': State, w: Caller)
    requires LogOk(s) && ApplierStep(s, s', w)
    ensures LogOk(s')
  {
    OpenIsNotApplied(s, w);
    forall i | 0 <= i < |s.log| ensures EntryOk(s', s.log[i]) {
      assert EntryOk(s, s.log[i]);
    }
    if s'.log != s.log {
      EntriesGrow(s, s', Applying(w, s.appliers[w].request, s'.appliers[w].stage.refusal));
      assert s'.log[|s.log|] == Applying(w, s.appliers[w].request, s'.appliers[w].stage.refusal);
    }
    forall q | q in s'.procs ensures AnswerOk(s', q) {
      assert AnswerOk(s, q);
    }
    forall v | v in s'.appliers ensures VerdictOk(s', v) {
      assert VerdictOk(s, v);
    }
  }

  lemma InstantKeepsLog(s: State, s': State, t: Txn)
    requires LogOk(s) && InstantStep(s, s', t) && (t.Editing? || t.Working?)
    ensures LogOk(s')
  {
    forall i | 0 <= i < |s.log| ensures EntryOk(s', s.log[i]) {
      assert EntryOk(s, s.log[i]);
    }
    if s'.log != s.log {
      EntriesGrow(s, s', t);
    }
    forall q | q in s'.procs ensures AnswerOk(s', q) {
      assert AnswerOk(s, q);
    }
    forall v | v in s'.appliers ensures VerdictOk(s', v) {
      assert VerdictOk(s, v);
    }
  }

  /** A call begins, or a key is lost: nothing is logged, and no older call changes. */
  lemma NewcomerKeepsLog(s: State, s': State)
    requires LogOk(s) && s'.log == s.log
    requires forall p :: p in s.procs ==> p in s'.procs && s'.procs[p] == s.procs[p]
    requires forall w :: w in s.appliers ==> w in s'.appliers && s'.appliers[w] == s.appliers[w]
    requires forall p :: p in s'.procs && p !in s.procs ==> s'.procs[p].phase.Arrived?
    requires forall w :: w in s'.appliers && w !in s.appliers ==> s'.appliers[w].stage.Asked?
    ensures LogOk(s')
  {
    forall i | 0 <= i < |s.log| ensures EntryOk(s', s.log[i]) {
      assert EntryOk(s, s.log[i]);
    }
    forall q | q in s'.procs ensures AnswerOk(s', q) {
      assert q in s.procs ==> AnswerOk(s, q);
    }
    forall v | v in s'.appliers ensures VerdictOk(s', v) {
      assert v in s.appliers ==> VerdictOk(s, v);
    }
  }

  lemma CheckoutKeepsLog(cfg: Config, s: State, s': State, p: Process)
    requires Inv(cfg, s) && LogOk(s) && CheckoutStep(s, s', p)
    ensures LogOk(s')
  {
    if QuietStep(s, s', p) {
      QuietKeepsLog(cfg, s, s', p);
    } else {
      OwnKeepsLog(s, s', p);
    }
  }

  lemma EntryKeepsLog(s: State, e: Event, s': State)
    requires LogOk(s) && Shape(s, e, s') && (e.Start? || e.StartApply? || e.LoseSentinel? || e.LoseLock?)
    ensures LogOk(s')
  {
    NewcomerKeepsLog(s, s');
  }

  lemma OtherKeepsLog(s: State, e: Event, s': State)
    requires LogOk(s) && Shape(s, e, s') && s' != s && (e.CouponStep? || e.EditCart? || e.Work?)
    ensures LogOk(s')
  {
    match e {
      case CouponStep(w, _) => ApplierKeepsLog(s, s', w);
      case EditCart(edit) => InstantKeepsLog(s, s', Editing(edit));
      case Work(event) => InstantKeepsLog(s, s', Working(event));
    }
  }

  lemma ShapeKeepsLog(cfg: Config, s: State, e: Event, s': State)
    requires Inv(cfg, s) && LogOk(s) && Shape(s, e, s')
    ensures LogOk(s')
  {
    if s' != s {
      if OfProcess(e) {
        CheckoutKeepsLog(cfg, s, s', e.p);
      } else if e.CouponStep? || e.EditCart? || e.Work? {
        OtherKeepsLog(s, e, s');
      } else {
        EntryKeepsLog(s, e, s');
      }
    }
  }

  lemma {:induction false} RunKeepsLog(cfg: Config, db0: Db, es: seq<Event>)
    requires StoreOk(cfg, db0)
    ensures LogOk(Run(cfg, Initial(db0), es))
    decreases |es|
  {
    if es != [] {
      var s, e := Run(cfg, Initial(db0), es[..|es| - 1]), es[|es| - 1];
      RunKeepsLog(cfg, db0, es[..|es| - 1]);
      RunKeeps(cfg, db0, es[..|es| - 1]);
      StepShape(cfg, s, e);
      ShapeKeepsLog(cfg, s, e, Step(cfg, s, e));
    }
  }

  // ---------------------------------------------------------- all runs

  /** A transaction that took effect or was refused never gives an answer of a call turned away. */
  lemma LoggedIsNotUnlogged(cfg: Config, db: Db, p: Process, a: Attempt, outcome: Outcome)
    requires Faithful(cfg, db, CheckingOut(p, a, outcome))
    ensures !Unlogged(p, outcome)
  {
  }

  /**
   The log is what callers saw.  Every logged checkout is that of one process, with its own request, and
   unless the process has died it has that outcome to return; no process is logged twice.  A process
   that has an outcome was logged with it, unless it was turned away, aborted, or is given the result of
   another process's order: and those are never logged.  An application is done exactly when it is logged.
   */
  lemma LogIsWhatCallersSaw(cfg: Config, db0: Db, es: seq<Event>)
    requires StoreOk(cfg, db0)
    ensures var s := Run(cfg, Initial(db0), es);
            && EntriesOk(s)
            && (forall p, outcome :: p in s.procs && HasOutcome(s.procs[p].phase, outcome) ==>
                  (CheckingOut(p, s.procs[p].attempt, outcome) in s.log <==> !Unlogged(p, outcome)))
            && (forall w, r, refusal :: Applying(w, r, refusal) in s.log
                  <==> w in s.appliers && s.appliers[w] == CouponRace.Applier(r, CouponRace.Done(refusal)))
  {
    RunKeepsLog(cfg, db0, es);
    var s := Run(cfg, Initial(db0), es);
    forall p, outcome | p in s.procs && HasOutcome(s.procs[p].phase, outcome)
      ensures CheckingOut(p, s.procs[p].attempt, outcome) in s.log <==> !Unlogged(p, outcome)
    {
      assert AnswerOk(s, p);
      if CheckingOut(p, s.procs[p].attempt, outcome) in s.log {
        LoggedAnswer(cfg, db0, es, CheckingOut(p, s.procs[p].attempt, outcome));
      }
    }
    ApplicationsAreLogged(s);
  }

  lemma LoggedAnswer(cfg: Config, db0: Db, es: seq<Event>, t: Txn)
    requires StoreOk(cfg, db0) && t in Run(cfg, Initial(db0), es).log && t.CheckingOut?
    ensures !Unlogged(t.id, t.outcome)
  {
    EveryRunIsSerial(cfg, db0, es);
    var log := Run(cfg, Initial(db0), es).log;
    var i :| 0 <= i < |log| && log[i] == t;
    LoggedIsNotUnlogged(cfg, Serial(cfg, Opening(db0), log[..i]).db, t.id, t.attempt, t.outcome);
  }

  lemma ApplicationsAreLogged(s: State)
    requires LogOk(s)
    ensures forall w, r, refusal :: Applying(w, r, refusal) in s.log
              <==> w in s.appliers && s.appliers[w] == CouponRace.Applier(r, CouponRace.Done(refusal))
  {
    forall w, r, refusal
      ensures Applying(w, r, refusal) in s.log
              <==> w in s.appliers && s.appliers[w] == CouponRace.Applier(r, CouponRace.Done(refusal))
    {
      if w in s.appliers {
        assert VerdictOk(s, w);
      }
      if Applying(w, r, refusal) in s.log {
        var i :| 0 <= i < |s.log| && s.log[i] == Applying(w, r, refusal);
        assert EntryOk(s, s.log[i]);
      }
    }
  }

  /**
   Every answer is the serial one: a call that has returned was turned away, aborted or replayed, or it
   has a place in the log, and the one-instant checkout at that place returns the same.
   */
  lemma EveryAnswerIsSerial(cfg: Config, db0: Db, es: seq<Event>, p: Process, outcome: Outcome)
    requires StoreOk(cfg, db0) && Answered(Run(cfg, Initial(db0), es), p, outcome)
    ensures var s := Run(cfg, Initial(db0), es);
            || Unlogged(p, outcome)
            || exists i :: 0 <= i < |s.log| && s.log[i] == CheckingOut(p, s.procs[p].attempt, outcome)
                           && Faithful(cfg, Shop.Run(cfg, Opening(db0), Events(s.log[..i])).db, s.log[i])
  {
    var s := Run(cfg, Initial(db0), es);
    RunKeepsLog(cfg, db0, es);
    EveryRunIsSerial(cfg, db0, es);
    assert AnswerOk(s, p);
    if !Unlogged(p, outcome) {
      var i :| 0 <= i < |s.log| && s.log[i] == CheckingOut(p, s.procs[p].attempt, outcome);
      assert Faithful(cfg, Serial(cfg, Opening(db0), s.log[..i]).db, s.log[i]);
    }
  }

  // ------------------------------------------------------------ real time

  /** The call of t has come to its end. */
  predicate Finished(s: State, t: Txn)
  {
    match t
    case CheckingOut(p, _, _) => p in s.procs && Over(s.procs[p].phase)
    case Applying(w, _, _) => w in s.appliers && CouponRace.Over(s.appliers[w].stage)
    case _ => false
  }

  /** The call of t has arrived. */
  predicate Begun(s: State, t: Txn)
  {
    match t
    case CheckingOut(p, _, _) => p in s.procs
    case Applying(w, _, _) => w in s.appliers
    case _ => true
  }

  /** Since s0 the log has only grown, by no call that had finished; and what is finished stays so. */
  ghost predicate Grown(s0: State, s: State)
  {
    && s0.log <= s.log
    && (forall t :: Finished(s0, t) ==> Finished(s, t))
    && (forall i :: |s0.log| <= i < |s.log| ==> !Finished(s0, s.log[i]))
  }

  lemma ShapeFinishes(s: State, e: Event, s': State)
    requires Shape(s, e, s')
    ensures Grown(s, s')
  {
    if s' != s && OfProcess(e) {
      CheckoutFinishes(s, s', e.p);
    }
  }

  lemma CheckoutFinishes(s: State, s': State, p: Process)
    requires CheckoutStep(s, s', p)
    ensures Grown(s, s')
  {
  }

  lemma GrownOn(s0: State, s: State, s': State)
    requires Grown(s0, s) && Grown(s, s')
    ensures Grown(s0, s')
  {
    forall i | |s0.log| <= i < |s'.log| ensures !Finished(s0, s'.log[i]) {
      if i < |s.log| {
        assert s'.log[i] == s.log[i];
      } else {
        assert !Finished(s, s'.log[i]);
      }
    }
  }

  lemma {:induction false} RunGrows(cfg: Config, s0: State, es: seq<Event>)
    ensures Grown(s0, Run(cfg, s0, es))
    decreases |es|
  {
    if es != [] {
      var s, e := Run(cfg, s0, es[..|es| - 1]), es[|es| - 1];
      RunGrows(cfg, s0, es[..|es| - 1]);
      StepShape(cfg, s, e);
      ShapeFinishes(s, e, Step(cfg, s, e));
      GrownOn(s0, s, Step(cfg, s, e));
    }
  }

  /**
   The serial order respects real time: a call that had come to its end before another one arrived is
   earlier in the log, wherever the run goes from there.
   */
  lemma LogRespectsRealTime(cfg: Config, db0: Db, es: seq<Event>, more: seq<Event>, i: nat, j: nat)
    requires StoreOk(cfg, db0)
    requires var s0 := Run(cfg, Initial(db0), es);
             var log := Run(cfg, s0, more).log;
             i < |log| && j < |log| && Finished(s0, log[i]) && !Begun(s0, log[j])
    ensures i < j
  {
    var s0 := Run(cfg, Initial(db0), es);
    RunKeepsLog(cfg, db0, es);
    RunGrows(cfg, s0, more);
    LaterCallsComeLater(s0, Run(cfg, s0, more).log, i, j);
  }

  lemma LaterCallsComeLater(s0: State, log: seq<Txn>, i: nat, j: nat)
    requires EntriesOk(s0) && s0.log <= log && i < |log| && j < |log|
    requires forall k :: |s0.log| <= k < |log| ==> !Finished(s0, log[k])
    requires Finished(s0, log[i]) && !Begun(s0, log[j])
    ensures i < |s0.log| <= j
  {
    assert j < |s0.log| ==> EntryOk(s0, s0.log[j]);
  }
}
