/** How far each step reaches: the phase of one process or application, and the one entry of the log that settles it. */
module ProtocolSteps {
  import opened Schema
  import opened Checkout
  import opened Idempotency
  import opened Sales
  import opened Protocol
  import CouponRace
  import Shop

  predicate InsideEvent(e: Event, p: Process)
  {
    e == LockCart(p) || e == Validate(p) || e == Take(p) || e == MarkCart(p) || e == InsertRecord(p) || e == Commit(p)
  }

  /** p has moved to its new phase: that, the database and the log are all that may differ. */
  predicate OnlyPhase(s: State, s': State, p: Process)
    requires p in s.procs
  {
    p in s'.procs && s' == To(s, p, s'.procs[p].phase).(db := s'.db, log := s'.log)
  }

  /** A step inside the transaction stays within p's own rows, or logs what it settles. */
  predicate OwnStep(s: State, s': State, p: Process)
    requires p in s.procs
  {
    || s' == s
    || (OnlyPhase(s, s', p)
        && if s'.log == s.log then s'.db == s.db && InTransaction(s'.procs[p].phase)
           else s'.procs[p].phase.Ended? && s'.log == s.log + [CheckingOut(p, s.procs[p].attempt, s'.procs[p].phase.outcome)])
  }

  lemma HeldIsOwn(s: State, p: Process, phase: Phase)
    requires p in s.procs && InTransaction(phase)
    ensures OwnStep(s, To(s, p, phase), p)
  {
  }

  lemma RefusedIsOwn(s: State, p: Process, e: CheckoutError)
    requires p in s.procs
    ensures OwnStep(s, Refuse(s, p, e), p) && Refuse(s, p, e).db == s.db
  {
  }

  lemma LockCartIsOwn(s: State, p: Process)
    requires p in s.procs && s.procs[p].phase.Locked?
    ensures OwnStep(s, StepLockCart(s, p), p) && StepLockCart(s, p).db == s.db
  {
  }

  lemma ValidateIsOwn(cfg: Config, s: State, p: Process)
    requires p in s.procs && s.procs[p].phase.CartHeld?
    ensures OwnStep(s, StepValidate(cfg, s, p), p) && StepValidate(cfg, s, p).db == s.db
  {
  }

  lemma TakeIsOwn(s: State, p: Process)
    requires p in s.procs && s.procs[p].phase.Taking?
    ensures OwnStep(s, StepTake(s, p), p) && StepTake(s, p).db == s.db
  {
  }

  lemma MarkCartIsOwn(s: State, p: Process)
    requires p in s.procs && s.procs[p].phase.Taking?
    ensures OwnStep(s, StepMarkCart(s, p), p) && StepMarkCart(s, p).db == s.db
  {
  }

  lemma InsertRecordIsOwn(s: State, p: Process)
    requires p in s.procs && s.procs[p].phase.CartMarked?
    ensures OwnStep(s, StepInsertRecord(s, p), p) && StepInsertRecord(s, p).db == s.db
  {
  }

  lemma CommitIsOwn(s: State, p: Process)
    requires p in s.procs && s.procs[p].phase.KeyHeld?
    ensures OwnStep(s, StepCommit(s, p), p)
  {
  }

  /** What a transaction step of p does. */
  lemma InsideIsOwn(cfg: Config, s: State, p: Process, e: Event)
    requires p in s.procs && InsideEvent(e, p)
    ensures OwnStep(s, ProcessStep(cfg, s, e), p)
    ensures !e.Commit? ==> ProcessStep(cfg, s, e).db == s.db
    ensures InTransaction(s.procs[p].phase) || s.procs[p].phase.Locked? || ProcessStep(cfg, s, e) == s
  {
    var phase := s.procs[p].phase;
    match e {
      case LockCart(_) => if phase.Locked? { LockCartIsOwn(s, p); }
      case Validate(_) => if phase.CartHeld? { ValidateIsOwn(cfg, s, p); }
      case Take(_) => if phase.Taking? { TakeIsOwn(s, p); }
      case MarkCart(_) => if phase.Taking? { MarkCartIsOwn(s, p); }
      case InsertRecord(_) => if phase.CartMarked? { InsertRecordIsOwn(s, p); }
      case Commit(_) => if phase.KeyHeld? { CommitIsOwn(s, p); }
    }
  }

  // ------------------------------------------------ outside the transaction

  /** A step outside the transaction, an abort or a crash: no row changes. */
  predicate Quiet(e: Event)
  {
    OfProcess(e) && !e.LockCart? && !e.Validate? && !e.Take? && !e.MarkCart? && !e.InsertRecord? && !e.Commit?
  }

  /** The call is decided: it has an outcome, or it will never have one. */
  predicate Over(phase: Phase)
  {
    phase.Ended? || phase.Unlocked? || phase.Returned? || phase.Dead?
  }

  predicate HasOutcome(phase: Phase, outcome: Outcome)
  {
    phase == Ended(outcome) || phase == Unlocked(outcome) || phase == Returned(outcome)
  }

  /** The answer of a call that took no effect: turned away, aborted, or decided by the record of its key. */
  predicate TurnedAway(s: State, p: Process, outcome: Outcome)
    requires p in s.procs
  {
    var a := s.procs[p].attempt;
    || outcome == Err(DatabaseAborted) || outcome == Err(LockNotAcquired) || outcome == Err(RedisUnavailable)
    || outcome == Err(IdempotencyInProgress)
    || (s.procs[p].phase.Arrived? && RecordDecides(s.db.records, a.tenant, a.key, a.hash).Some?
        && outcome == DecidedResult(RecordDecides(s.db.records, a.tenant, a.key, a.hash).value))
  }

  /** An outcome is kept until it is returned; a new one is that of a call turned away. */
  predicate PhaseStep(s: State, p: Process, phase': Phase)
    requires p in s.procs
  {
    var phase := s.procs[p].phase;
    match phase'
    case Ended(outcome) => HasOutcome(phase, outcome) || (!Over(phase) && TurnedAway(s, p, outcome))
    case Unlocked(outcome) => HasOutcome(phase, outcome) || (!Over(phase) && TurnedAway(s, p, outcome))
    case Returned(outcome) => HasOutcome(phase, outcome) || (!Over(phase) && TurnedAway(s, p, outcome))
    case Dead => true
    case Arrived => phase.Arrived?
    case _ => !Over(phase) && !InTransaction(phase')
  }

  /** p has moved to its new phase: that and the two stores of keys are all that may differ. */
  predicate QuietStep(s: State, s': State, p: Process)
    requires p in s.procs
  {
    || s' == s
    || (p in s'.procs
        && s' == To(s, p, s'.procs[p].phase).(sentinels := s'.sentinels, locks := s'.locks)
        && PhaseStep(s, p, s'.procs[p].phase))
  }

  lemma ReadIsQuiet(cfg: Config, s: State, p: Process)
    requires p in s.procs
    ensures QuietStep(s, ProcessStep(cfg, s, ReadRecord(p)), p)
  {
  }

  lemma EntryIsQuiet(cfg: Config, s: State, e: Event)
    requires (e.ReadSentinel? || e.Mark? || e.TakeLock?) && e.p in s.procs
    ensures QuietStep(s, ProcessStep(cfg, s, e), e.p)
  {
    var s' := ProcessStep(cfg, s, e);
    if s' != s {
      MovedIsQuiet(s, e.p, s'.procs[e.p].phase, s'.sentinels, s'.locks);
    }
  }

  lemma MovedIsQuiet(s: State, p: Process, phase: Phase, sentinels: set<(TenantId, Key)>, locks: map<(TenantId, CartId), Process>)
    requires p in s.procs && PhaseStep(s, p, phase)
    ensures QuietStep(s, To(s, p, phase).(sentinels := sentinels, locks := locks), p)
  {
  }

  lemma FailureIsQuiet(s: State, p: Process, applied: bool)
    requires p in s.procs
    ensures QuietStep(s, StepRedisFails(s, p, applied), p)
  {
    var s', phase := StepRedisFails(s, p, applied), s.procs[p].phase;
    if phase.NoRecord? || phase.NoSentinel? {
      MovedIsQuiet(s, p, Returned(Err(RedisUnavailable)), s'.sentinels, s'.locks);
    } else if phase.Marked? {
      MovedIsQuiet(s, p, Unlocked(Err(RedisUnavailable)), s'.sentinels, s'.locks);
    } else if phase.Ended? {
      MovedIsQuiet(s, p, Unlocked(phase.outcome), s'.sentinels, s'.locks);
    } else if phase.Unlocked? {
      MovedIsQuiet(s, p, Returned(phase.outcome), s'.sentinels, s'.locks);
    }
  }

  lemma ExitIsQuiet(cfg: Config, s: State, e: Event)
    requires (e.Abort? || e.Release? || e.Clear? || e.Crash?) && e.p in s.procs
    ensures QuietStep(s, ProcessStep(cfg, s, e), e.p)
  {
  }

  lemma QuietIsQuiet(cfg: Config, s: State, e: Event)
    requires Quiet(e) && e.p in s.procs
    ensures QuietStep(s, ProcessStep(cfg, s, e), e.p)
  {
    if e.ReadRecord? {
      ReadIsQuiet(cfg, s, e.p);
    } else if e.ReadSentinel? || e.Mark? || e.TakeLock? {
      EntryIsQuiet(cfg, s, e);
    } else if e.RedisFails? {
      FailureIsQuiet(s, e.p, e.applied);
    } else {
      ExitIsQuiet(cfg, s, e);
    }
  }

  /** A Redis command that fails before the transaction is reported to the caller. */
  lemma RedisFailureIsReported(s: State, p: Process, applied: bool)
    requires p in s.procs && (s.procs[p].phase.NoRecord? || s.procs[p].phase.NoSentinel? || s.procs[p].phase.Marked?)
    ensures var phase := if s.procs[p].phase.Marked? then Unlocked(Err(RedisUnavailable)) else Returned(Err(RedisUnavailable));
            OnlyPhaseAndKeys(s, StepRedisFails(s, p, applied), p, phase)
  {
  }

  /** One that fails after it changes no outcome. */
  lemma RedisFailureKeepsTheOutcome(s: State, p: Process, applied: bool)
    requires p in s.procs && (s.procs[p].phase.Ended? || s.procs[p].phase.Unlocked?)
    ensures var outcome := s.procs[p].phase.outcome;
            OnlyPhaseAndKeys(s, StepRedisFails(s, p, applied), p,
                             if s.procs[p].phase.Ended? then Unlocked(outcome) else Returned(outcome))
  {
  }

  ghost predicate OnlyPhaseAndKeys(s: State, s': State, p: Process, phase: Phase)
    requires p in s.procs
  {
    s' == To(s, p, phase).(sentinels := s'.sentinels, locks := s'.locks)
  }

  /** A transaction that the database aborts ends with that error, and one that dies with none; neither leaves a row. */
  lemma AbortLeavesNothing(cfg: Config, s: State, p: Process)
    requires p in s.procs && InTransaction(s.procs[p].phase)
    ensures ProcessStep(cfg, s, Abort(p)) == To(s, p, Ended(Err(DatabaseAborted)))
    ensures ProcessStep(cfg, s, Crash(p)) == To(s, p, Dead)
  {
  }

  // ---------------------------------------------------------------- any step

  /** A transaction at one instant. */
  predicate InstantStep(s: State, s': State, t: Txn)
  {
    s'.procs == s.procs && s'.appliers == s.appliers && (s'.log == s.log || s'.log == s.log + [t])
  }

  /** An application moves to its next stage, and is logged when it is done. */
  predicate ApplierStep(s: State, s': State, w: Caller)
  {
    && w in s.appliers && w in s'.appliers && !CouponRace.Over(s.appliers[w].stage)
    && s'.procs == s.procs
    && s'.appliers == s.appliers[w := s.appliers[w].(stage := s'.appliers[w].stage)]
    && s'.log == if s'.appliers[w].stage.Done? then s.log + [Applying(w, s.appliers[w].request, s'.appliers[w].stage.refusal)]
                 else s.log
  }

  predicate CheckoutStep(s: State, s': State, p: Process)
  {
    p in s.procs && (QuietStep(s, s', p) || (OwnStep(s, s', p) && !Over(s.procs[p].phase)))
  }

  /** Whose phase a step changes, and what it logs. */
  predicate Shape(s: State, e: Event, s': State)
  {
    || s' == s
    || match e
       case Start(p, a) => p !in s.procs && s' == s.(procs := s.procs[p := Proc(a, Arrived)])
       case LoseSentinel(_, _) => s'.procs == s.procs && s'.appliers == s.appliers && s'.log == s.log
       case LoseLock(_, _) => s'.procs == s.procs && s'.appliers == s.appliers && s'.log == s.log
       case EditCart(edit) => InstantStep(s, s', Editing(edit))
       case Work(event) => InstantStep(s, s', Working(event))
       case StartApply(w, r) =>
         w !in s.appliers && s' == s.(appliers := s.appliers[w := CouponRace.Applier(r, CouponRace.Asked)])
       case CouponStep(w, _) => ApplierStep(s, s', w)
       case _ => CheckoutStep(s, s', e.p)
  }

  lemma StepOfProcess(cfg: Config, s: State, e: Event)
    requires OfProcess(e)
    ensures Step(cfg, s, e) == if e.p in s.procs then ProcessStep(cfg, s, e) else s
  {
  }

  lemma StepOfEdit(cfg: Config, s: State, e: Edit)
    ensures Step(cfg, s, EditCart(e)) == StepEdit(cfg, s, e)
  {
  }

  lemma StepOfWork(cfg: Config, s: State, e: Shop.Event)
    ensures Step(cfg, s, Work(e)) == StepWork(cfg, s, e)
  {
  }

  lemma StepOfCoupon(cfg: Config, s: State, w: Caller, statement: CouponRace.Statement)
    ensures Step(cfg, s, CouponStep(w, statement)) == if w in s.appliers then StepApply(cfg, s, w, statement) else s
  {
  }

  lemma QuietShape(cfg: Config, s: State, e: Event)
    requires Quiet(e)
    ensures Shape(s, e, Step(cfg, s, e))
  {
    StepOfProcess(cfg, s, e);
    if e.p in s.procs {
      QuietIsQuiet(cfg, s, e);
    }
  }

  lemma InsideShape(cfg: Config, s: State, e: Event)
    requires OfProcess(e) && !Quiet(e)
    ensures Shape(s, e, Step(cfg, s, e))
  {
    StepOfProcess(cfg, s, e);
    if e.p in s.procs {
      InsideIsOwn(cfg, s, e.p, e);
    }
  }

  lemma ApplyShape(cfg: Config, s: State, w: Caller, statement: CouponRace.Statement)
    requires w in s.appliers
    ensures StepApply(cfg, s, w, statement) == s || ApplierStep(s, StepApply(cfg, s, w, statement), w)
  {
    var move := CouponRace.Next(cfg.rules, cfg.policy, s.db.codes, LedgerOf(s.db), s.appliers[w], statement);
    CouponRace.OverIsOver(cfg.rules, cfg.policy, s.db.codes, LedgerOf(s.db), s.appliers[w], statement);
    if !move.Stay? {
      StageShape(s, w, if move.Go? then move.stage else CouponRace.Done(if move.Refuse? then Some(move.error) else None),
                 StepApply(cfg, s, w, statement).db);
    }
  }

  lemma StageShape(s: State, w: Caller, stage: CouponRace.Stage, db: Db)
    requires w in s.appliers && !CouponRace.Over(s.appliers[w].stage)
    ensures ApplierStep(s, ToStage(s, w, stage).(db := db,
              log := if stage.Done? then s.log + [Applying(w, s.appliers[w].request, stage.refusal)] else s.log), w)
  {
  }

  lemma InstantShape(cfg: Config, s: State, e: Event)
    requires e.EditCart? || e.Work?
    ensures Shape(s, e, Step(cfg, s, e))
  {
    if e.EditCart? {
      StepOfEdit(cfg, s, e.edit);
    } else {
      StepOfWork(cfg, s, e.event);
    }
  }

  lemma EntryShape(cfg: Config, s: State, e: Event)
    requires e.Start? || e.StartApply? || e.LoseSentinel? || e.LoseLock?
    ensures Shape(s, e, Step(cfg, s, e))
  {
  }

  lemma StepShape(cfg: Config, s: State, e: Event)
    ensures Shape(s, e, Step(cfg, s, e))
  {
    if Quiet(e) {
      QuietShape(cfg, s, e);
    } else if OfProcess(e) {
      InsideShape(cfg, s, e);
    } else if e.CouponStep? {
      StepOfCoupon(cfg, s, e.w, e.statement);
      if e.w in s.appliers {
        ApplyShape(cfg, s, e.w, e.statement);
      }
    } else if e.EditCart? || e.Work? {
      InstantShape(cfg, s, e);
    } else {
      EntryShape(cfg, s, e);
    }
  }
}
