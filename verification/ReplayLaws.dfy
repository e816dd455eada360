/**
 Exactly which calls of a committed key are replayed: those that look for the record after the commit.
 The two reads of the replay check are not one, so a call that looked before is never given the result.
 */
module ReplayLaws {
  import opened Schema
  import opened Idempotency
  import opened Checkout
  import opened Sales
  import opened Protocol
  import opened ProtocolSteps
  import opened ProtocolLaws
  import LogLaws
  import StockLaws

  /** Some continuation gives call q the result r. */
  ghost predicate MayGet(cfg: Config, s: State, q: Process, r: CheckoutResult)
  {
    exists more: seq<Event> :: Answered(Run(cfg, s, more), q, Ok(r))
  }

  predicate Recorded(s: State, q: Process, record: Record)
    requires q in s.procs
  {
    var k := (s.procs[q].attempt.tenant, s.procs[q].attempt.key);
    k in s.db.records && s.db.records[k] == record
  }

  /** Call q has passed the record by, or will find it to be another request's: it can only get its own order. */
  ghost predicate OnItsOwn(s: State, q: Process, record: Record)
  {
    && q in s.procs && Recorded(s, q, record)
    && (s.procs[q].phase.Arrived? ==> s.procs[q].attempt.hash != record.hash)
    && forall r :: HasOutcome(s.procs[q].phase, Ok(r)) ==> r.orderId == q
  }

  lemma QuietOnItsOwn(s: State, s': State, q: Process, record: Record)
    requires OnItsOwn(s, q, record) && QuietStep(s, s', q)
    ensures OnItsOwn(s', q, record)
  {
    if s' != s {
      forall r | HasOutcome(s'.procs[q].phase, Ok(r)) ensures r.orderId == q {
        assert HasOutcome(s.procs[q].phase, Ok(r));
      }
    }
  }

  /** A transaction that commits returns its own order. */
  lemma OwnOnItsOwn(cfg: Config, s: State, s': State, q: Process, record: Record)
    requires OnItsOwn(s, q, record) && OwnStep(s, s', q) && LoggedIn(cfg, s, s') && StockLaws.Extends(s.db, s'.db)
    ensures OnItsOwn(s', q, record)
  {
    if s'.log != s.log {
      var t := LastLogged(cfg, s, s');
      assert s'.log[|s.log|] == t == CheckingOut(q, s.procs[q].attempt, s'.procs[q].phase.outcome);
      LogLaws.LoggedIsNotUnlogged(cfg, s.db, q, s.procs[q].attempt, s'.procs[q].phase.outcome);
    }
  }

  lemma OthersLeave(s: State, e: Event, s': State, q: Process)
    requires q in s.procs && Shape(s, e, s') && !(OfProcess(e) && e.p == q)
    ensures q in s'.procs && s'.procs[q] == s.procs[q]
  {
  }

  lemma StepOnItsOwn(cfg: Config, s: State, e: Event, q: Process, record: Record)
    requires Inv(cfg, s) && OnItsOwn(s, q, record)
    ensures OnItsOwn(Step(cfg, s, e), q, record)
  {
    StepShape(cfg, s, e);
    StepKeeps(cfg, s, e);
    StockLaws.StepExtends(cfg, s, e);
    ShapeOnItsOwn(cfg, s, e, Step(cfg, s, e), q, record);
  }

  lemma ShapeOnItsOwn(cfg: Config, s: State, e: Event, s': State, q: Process, record: Record)
    requires OnItsOwn(s, q, record) && Shape(s, e, s') && LoggedIn(cfg, s, s') && StockLaws.Extends(s.db, s'.db)
    ensures OnItsOwn(s', q, record)
  {
    if OfProcess(e) && e.p == q {
      if QuietStep(s, s', q) {
        QuietOnItsOwn(s, s', q, record);
      } else {
        OwnOnItsOwn(cfg, s, s', q, record);
      }
    } else {
      OthersLeave(s, e, s', q);
    }
  }

  lemma {:induction false} RunOnItsOwn(cfg: Config, s: State, es: seq<Event>, q: Process, record: Record)
    requires Inv(cfg, s) && OnItsOwn(s, q, record)
    ensures OnItsOwn(Run(cfg, s, es), q, record)
    decreases |es|
  {
    if es != [] {
      RunOnItsOwn(cfg, s, es[..|es| - 1], q, record);
      RunKeepsInv(cfg, s, es[..|es| - 1]);
      StepOnItsOwn(cfg, Run(cfg, s, es[..|es| - 1]), es[|es| - 1], q, record);
    }
  }

  /** One step is enough for a call that has yet to look. */
  lemma LookingIsEnough(cfg: Config, s: State, q: Process, record: Record, r: CheckoutResult)
    requires q in s.procs && s.procs[q].phase.Arrived? && Recorded(s, q, record)
    requires record.status.RecordSucceeded? && ResultOf(record) == Some(r) && s.procs[q].attempt.hash == record.hash
    ensures MayGet(cfg, s, q, r)
  {
    StockLaws.ReadReplays(cfg, s, q, record);
    var more := [ReadRecord(q)];
    assert more[..0] == [];
    assert Run(cfg, s, more) == Step(cfg, s, ReadRecord(q));
    assert Answered(Run(cfg, s, more), q, Ok(r));
  }

  /** The recorded result is that of another call's order. */
  lemma ResultIsNotItsOwn(cfg: Config, s: State, q: Process, record: Record, r: CheckoutResult)
    requires Inv(cfg, s) && q in s.procs && !Over(s.procs[q].phase) && Recorded(s, q, record)
    requires record.status.RecordSucceeded? && ResultOf(record) == Some(r)
    ensures r.orderId != q
  {
    assert ProcOk(cfg, s.db, q, s.procs[q]);
    assert Backed(s.db, (s.procs[q].attempt.tenant, s.procs[q].attempt.key));
  }

  /**
   In any reachable state, a call that is still open, of a key whose record has committed, may yet be
   given the recorded result if and only if it has not looked for the record before, and asks with the
   recorded hash.  (Whatever happens in between, it then gets it: StockLaws.ReplayOnceCommitted.)
   */
  lemma ReplayedExactlyWhenItLooksAfterTheCommit(cfg: Config, db0: Db, es: seq<Event>, q: Process, r: CheckoutResult)
    requires StoreOk(cfg, db0)
    requires var s := Run(cfg, Initial(db0), es);
             && q in s.procs && !Over(s.procs[q].phase)
             && var k := (s.procs[q].attempt.tenant, s.procs[q].attempt.key);
             && k in s.db.records && s.db.records[k].status.RecordSucceeded? && ResultOf(s.db.records[k]) == Some(r)
    ensures var s := Run(cfg, Initial(db0), es);
            var a := s.procs[q].attempt;
            MayGet(cfg, s, q, r)
            <==> s.procs[q].phase.Arrived? && a.hash == s.db.records[(a.tenant, a.key)].hash
  {
    var s := Run(cfg, Initial(db0), es);
    RunKeeps(cfg, db0, es);
    OpenCallMayGet(cfg, s, q, s.db.records[(s.procs[q].attempt.tenant, s.procs[q].attempt.key)], r);
  }

  lemma OpenCallMayGet(cfg: Config, s: State, q: Process, record: Record, r: CheckoutResult)
    requires Inv(cfg, s) && q in s.procs && !Over(s.procs[q].phase) && Recorded(s, q, record)
    requires record.status.RecordSucceeded? && ResultOf(record) == Some(r)
    ensures MayGet(cfg, s, q, r) <==> s.procs[q].phase.Arrived? && s.procs[q].attempt.hash == record.hash
  {
    if s.procs[q].phase.Arrived? && s.procs[q].attempt.hash == record.hash {
      LookingIsEnough(cfg, s, q, record, r);
    } else {
      ResultIsNotItsOwn(cfg, s, q, record, r);
      forall more: seq<Event> ensures !Answered(Run(cfg, s, more), q, Ok(r)) {
        RunOnItsOwn(cfg, s, more, q, record);
      }
    }
  }
}
