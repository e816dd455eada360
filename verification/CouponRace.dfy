/**
 Applying a coupon one statement at a time: the coupon row is locked first, then the cart row; checks,
 the inserted application and the conditional increment come between locking and commit.
 */
module CouponRace {
  import opened Schema
  import opened CartRules
  import opened Validation
  import opened CouponRules
  import opened CouponLaws

  datatype Request = Request(tenant: TenantId, cart: CartId, code: string, now: int, country: Option<string>)

  datatype Stage =
    | Asked
    | CouponLocked(id: CouponId, coupon: Coupon)
    | BothLocked(id: CouponId, coupon: Coupon, row: Cart)
    /** The checks have passed and the application is inserted. */
    | RowInserted(id: CouponId, coupon: Coupon, row: Cart, snapshot: nat)
    /** The conditional UPDATE of the counter matched its row. */
    | Counted(id: CouponId, coupon: Coupon, row: Cart, snapshot: nat)
    | Done(refusal: Option<ApplyError>)
    /** Aborted by the database, or its process died. */
    | Aborted

  datatype Applier = Applier(request: Request, stage: Stage)

  datatype Statement = LockCoupon | LockCart | Check | Increment | Finish | Abort

  predicate HoldsCouponRow(ap: Applier, k: CouponId)
  {
    match ap.stage
    case CouponLocked(id, _) => id == k
    case BothLocked(id, _, _) => id == k
    case RowInserted(id, _, _, _) => id == k
    case Counted(id, _, _, _) => id == k
    case _ => false
  }

  predicate HoldsCartRow(ap: Applier, c: CartId)
  {
    (ap.stage.BothLocked? || ap.stage.RowInserted? || ap.stage.Counted?) && ap.request.cart == c
  }

  /** Some row is locked. */
  predicate Open(stage: Stage)
  {
    stage.CouponLocked? || stage.BothLocked? || stage.RowInserted? || stage.Counted?
  }

  predicate Over(stage: Stage)
  {
    stage.Done? || stage.Aborted?
  }

  // -------------------------------------------------------------- statements

  /** What a statement does, on the committed ledger it runs against. */
  datatype Move = Stay | Go(stage: Stage) | Refuse(error: ApplyError) | CommitTo(ledger: Ledger)

  function FindCoupon(codes: Codes, l: Ledger, r: Request): Move
  {
    if (r.tenant, r.code) !in codes || codes[(r.tenant, r.code)] !in l.coupons
       || !l.coupons[codes[(r.tenant, r.code)]].active then Refuse(Refused(CouponNotFound))
    else Go(CouponLocked(codes[(r.tenant, r.code)], l.coupons[codes[(r.tenant, r.code)]]))
  }

  function FindCart(l: Ledger, r: Request, id: CouponId, coupon: Coupon): Move
  {
    if !Owned(l.carts, r.tenant, r.cart) then Refuse(OnCart(CartMissing)) else Go(BothLocked(id, coupon, l.carts[r.cart]))
  }

  function RunChecks(rules: Rules, policy: Policy, l: Ledger, r: Request, id: CouponId, coupon: Coupon, row: Cart): Move
  {
    if Has(row.applied, id) then Refuse(Refused(CouponAlreadyApplied))
    else if Conflict(policy, l.coupons, row.applied, coupon) then Refuse(Refused(CouponStackingViolation))
    else
      match Verdict(rules, coupon, ContextOf(row, r.now, r.country))
      case Some(e) => Refuse(Refused(e))
      case None => Go(RowInserted(id, coupon, row, ComputeDiscount(coupon, row.total, SumApplied(row.applied))))
  }

  /** The UPDATE looks at the row as it is now, not as it was read. */
  function CountUse(l: Ledger, id: CouponId, coupon: Coupon, row: Cart, snapshot: nat): Move
  {
    if id !in l.coupons then Stay
    else if l.coupons[id].usageLimit.Some? && l.coupons[id].used >= l.coupons[id].usageLimit.value
    then Refuse(Refused(CouponLimitReached))
    else Go(Counted(id, coupon, row, snapshot))
  }

  function FinishApply(l: Ledger, r: Request, id: CouponId, row: Cart, snapshot: nat): Move
  {
    if id !in l.coupons then Stay
    else
      match Recalculated(row.(applied := row.applied + [Application(id, snapshot)]))
      case Err(e) => Refuse(OnCart(e))
      case Ok(row') =>
        CommitTo(Ledger(l.carts[r.cart := row'], l.coupons[id := l.coupons[id].(used := l.coupons[id].used + 1)]))
  }

  function Next(rules: Rules, policy: Policy, codes: Codes, l: Ledger, ap: Applier, statement: Statement): Move
  {
    var r := ap.request;
    match (statement, ap.stage)
    case (LockCoupon, Asked) => FindCoupon(codes, l, r)
    case (LockCart, CouponLocked(id, coupon)) => FindCart(l, r, id, coupon)
    case (Check, BothLocked(id, coupon, row)) => RunChecks(rules, policy, l, r, id, coupon, row)
    case (Increment, RowInserted(id, coupon, row, snapshot)) => CountUse(l, id, coupon, row, snapshot)
    case (Finish, Counted(id, coupon, row, snapshot)) => FinishApply(l, r, id, row, snapshot)
    case (Abort, _) => if Over(ap.stage) then Stay else Go(Aborted)
    case _ => Stay
  }

  // -------------------------------------------------------------- refinement

  /** The one-instant application of the same request. */
  function AtOnce(rules: Rules, policy: Policy, codes: Codes, l: Ledger, r: Request): Result<Ledger, ApplyError>
  {
    Apply(rules, policy, codes, l, r.tenant, r.cart, r.code, r.now, r.country)
  }

  ghost predicate CouponSeen(codes: Codes, l: Ledger, r: Request, id: CouponId, coupon: Coupon)
  {
    && (r.tenant, r.code) in codes && codes[(r.tenant, r.code)] == id
    && id in l.coupons && l.coupons[id] == coupon && coupon.active
  }

  ghost predicate BothSeen(codes: Codes, l: Ledger, r: Request, id: CouponId, coupon: Coupon, row: Cart)
  {
    CouponSeen(codes, l, r, id, coupon) && Owned(l.carts, r.tenant, r.cart) && l.carts[r.cart] == row
  }

  ghost predicate ChecksPassed(rules: Rules, policy: Policy, l: Ledger, r: Request, id: CouponId, coupon: Coupon, row: Cart,
                               snapshot: nat)
  {
    && !Has(row.applied, id)
    && !Conflict(policy, l.coupons, row.applied, coupon)
    && Verdict(rules, coupon, ContextOf(row, r.now, r.country)).None?
    && snapshot == ComputeDiscount(coupon, row.total, SumApplied(row.applied))
  }

  /** What an application has read is still so, and how far it has come in the one-instant application. */
  ghost predicate StageOk(rules: Rules, policy: Policy, codes: Codes, l: Ledger, ap: Applier)
  {
    var r := ap.request;
    match ap.stage
    case CouponLocked(id, coupon) => CouponSeen(codes, l, r, id, coupon)
    case BothLocked(id, coupon, row) => BothSeen(codes, l, r, id, coupon, row)
    case RowInserted(id, coupon, row, snapshot) =>
      BothSeen(codes, l, r, id, coupon, row) && ChecksPassed(rules, policy, l, r, id, coupon, row, snapshot)
    case Counted(id, coupon, row, snapshot) =>
      && BothSeen(codes, l, r, id, coupon, row) && ChecksPassed(rules, policy, l, r, id, coupon, row, snapshot)
      && (coupon.usageLimit.Some? ==> coupon.used < coupon.usageLimit.value)
    case _ => true
  }

  /** A statement keeps this, or refuses what the one-instant application refuses, or commits what it commits. */
  lemma StatementIsAtOnce(rules: Rules, policy: Policy, codes: Codes, l: Ledger, ap: Applier, statement: Statement)
    requires StageOk(rules, policy, codes, l, ap)
    ensures match Next(rules, policy, codes, l, ap, statement)
            case Stay => true
            case Go(stage) => StageOk(rules, policy, codes, l, ap.(stage := stage))
            case Refuse(e) => AtOnce(rules, policy, codes, l, ap.request) == Err(e)
            case CommitTo(l') => AtOnce(rules, policy, codes, l, ap.request) == Ok(l')
  {
  }

  /** An application that is over takes no further statement, and one that goes on is not done. */
  lemma OverIsOver(rules: Rules, policy: Policy, codes: Codes, l: Ledger, ap: Applier, statement: Statement)
    ensures Over(ap.stage) ==> Next(rules, policy, codes, l, ap, statement).Stay?
    ensures Next(rules, policy, codes, l, ap, statement).Go? ==> !Next(rules, policy, codes, l, ap, statement).stage.Done?
  {
  }

  /** The rows an application has locked are the same in both ledgers, and coupons differ in their counters at most. */
  ghost predicate HeldRowsStay(l: Ledger, l': Ledger, ap: Applier)
  {
    && SameTerms(l.coupons, l'.coupons)
    && (forall k :: HoldsCouponRow(ap, k) && k in l.coupons ==> l'.coupons[k] == l.coupons[k])
    && (forall c :: HoldsCartRow(ap, c) && c in l.carts ==> c in l'.carts && l'.carts[c] == l.carts[c])
  }

  lemma ConflictStays(policy: Policy, coupons: Coupons, coupons': Coupons, applied: seq<Application>, candidate: Coupon)
    requires SameTerms(coupons, coupons')
    ensures Conflict(policy, coupons', applied, candidate) <==> Conflict(policy, coupons, applied, candidate)
  {
    forall i | 0 <= i < |applied| && applied[i].coupon in coupons
      ensures coupons'[applied[i].coupon].discountType == coupons[applied[i].coupon].discountType
    {
      SameTermsOf(coupons, coupons', applied[i].coupon);
    }
  }

  lemma StageStays(rules: Rules, policy: Policy, codes: Codes, l: Ledger, l': Ledger, ap: Applier)
    requires StageOk(rules, policy, codes, l, ap) && HeldRowsStay(l, l', ap)
    ensures StageOk(rules, policy, codes, l', ap)
  {
    match ap.stage {
      case CouponLocked(id, _) => assert HoldsCouponRow(ap, id);
      case BothLocked(id, _, _) => assert HoldsCouponRow(ap, id) && HoldsCartRow(ap, ap.request.cart);
      case RowInserted(id, coupon, row, _) =>
        assert HoldsCouponRow(ap, id) && HoldsCartRow(ap, ap.request.cart);
        ConflictStays(policy, l.coupons, l'.coupons, row.applied, coupon);
      case Counted(id, coupon, row, _) =>
        assert HoldsCouponRow(ap, id) && HoldsCartRow(ap, ap.request.cart);
        ConflictStays(policy, l.coupons, l'.coupons, row.applied, coupon);
      case _ =>
    }
  }

  /** A commit writes the two rows the application holds and no other. */
  lemma CommitWritesHeldRows(rules: Rules, policy: Policy, codes: Codes, l: Ledger, ap: Applier, statement: Statement)
    requires Next(rules, policy, codes, l, ap, statement).CommitTo?
    ensures var l' := Next(rules, policy, codes, l, ap, statement).ledger;
            && (forall c :: c in l.carts && !HoldsCartRow(ap, c) ==> c in l'.carts && l'.carts[c] == l.carts[c])
            && (forall k :: k in l.coupons && !HoldsCouponRow(ap, k) ==> k in l'.coupons && l'.coupons[k] == l.coupons[k])
            && SameTerms(l.coupons, l'.coupons)
  {
  }

  // --------------------------------------------------------- on its own

  /** The committed ledger and the application after one statement that nobody makes wait. */
  function After(rules: Rules, policy: Policy, codes: Codes, l: Ledger, ap: Applier, statement: Statement): (Ledger, Applier)
  {
    match Next(rules, policy, codes, l, ap, statement)
    case Stay => (l, ap)
    case Go(stage) => (l, ap.(stage := stage))
    case Refuse(e) => (l, ap.(stage := Done(Some(e))))
    case CommitTo(l') => (l', ap.(stage := Done(None)))
  }

  function AfterAll(rules: Rules, policy: Policy, codes: Codes, l: Ledger, ap: Applier, statements: seq<Statement>)
    : (Ledger, Applier)
    decreases |statements|
  {
    if statements == [] then (l, ap)
    else
      var (l', ap') := After(rules, policy, codes, l, ap, statements[0]);
      AfterAll(rules, policy, codes, l', ap', statements[1..])
  }

  /** An application that is over has nothing left to do. */
  lemma {:induction false} OverStays(rules: Rules, policy: Policy, codes: Codes, l: Ledger, ap: Applier, statements: seq<Statement>)
    requires Over(ap.stage)
    ensures AfterAll(rules, policy, codes, l, ap, statements) == (l, ap)
    decreases |statements|
  {
    if statements != [] {
      OverIsOver(rules, policy, codes, l, ap, statements[0]);
      OverStays(rules, policy, codes, l, ap, statements[1..]);
    }
  }

  /** Where an application with that request ends, and the ledger it leaves. */
  function Answered(rules: Rules, policy: Policy, codes: Codes, l: Ledger, r: Request): (Ledger, Applier)
  {
    match AtOnce(rules, policy, codes, l, r)
    case Ok(l') => (l', Applier(r, Done(None)))
    case Err(e) => (l, Applier(r, Done(Some(e))))
  }

  /** A statement that does not wait: the application has gone on, or it is answered. */
  lemma GoesOnOrIsAnswered(rules: Rules, policy: Policy, codes: Codes, l: Ledger, ap: Applier, statement: Statement)
    requires StageOk(rules, policy, codes, l, ap) && !Next(rules, policy, codes, l, ap, statement).Stay?
    ensures var (l', ap') := After(rules, policy, codes, l, ap, statement);
            if Next(rules, policy, codes, l, ap, statement).Go? then
              l' == l && ap'.request == ap.request && StageOk(rules, policy, codes, l, ap')
            else (l', ap') == Answered(rules, policy, codes, l, ap.request) && Over(ap'.stage)
  {
    StatementIsAtOnce(rules, policy, codes, l, ap, statement);
  }

  /** The statements still to come at a stage. */
  function Remaining(stage: Stage): seq<Statement>
  {
    match stage
    case Asked => [LockCoupon, LockCart, Check, Increment, Finish]
    case CouponLocked(_, _) => [LockCart, Check, Increment, Finish]
    case BothLocked(_, _, _) => [Check, Increment, Finish]
    case RowInserted(_, _, _, _) => [Increment, Finish]
    case Counted(_, _, _, _) => [Finish]
    case _ => []
  }

  lemma DueStatement(rules: Rules, policy: Policy, codes: Codes, l: Ledger, ap: Applier)
    requires StageOk(rules, policy, codes, l, ap) && !Over(ap.stage)
    ensures var move := Next(rules, policy, codes, l, ap, Remaining(ap.stage)[0]);
            !move.Stay? && (move.Go? ==> Remaining(move.stage) == Remaining(ap.stage)[1..])
  {
  }

  /** An application that nobody interrupts comes to its end, with the answer and the effect of the one-instant one. */
  lemma {:induction false} AloneIsAtOnce(rules: Rules, policy: Policy, codes: Codes, l: Ledger, ap: Applier)
    requires StageOk(rules, policy, codes, l, ap) && !Over(ap.stage)
    ensures AfterAll(rules, policy, codes, l, ap, Remaining(ap.stage))
         == match AtOnce(rules, policy, codes, l, ap.request)
            case Ok(l') => (l', Applier(ap.request, Done(None)))
            case Err(e) => (l, Applier(ap.request, Done(Some(e))))
    decreases |Remaining(ap.stage)|
  {
    var statements := Remaining(ap.stage);
    var (l', ap') := After(rules, policy, codes, l, ap, statements[0]);
    DueStatement(rules, policy, codes, l, ap);
    GoesOnOrIsAnswered(rules, policy, codes, l, ap, statements[0]);
    if Over(ap'.stage) {
      OverStays(rules, policy, codes, l', ap', statements[1..]);
    } else {
      AloneIsAtOnce(rules, policy, codes, l, ap');
    }
  }

  // ---------------------------------------------- what the row lock is for

  /** Two applications have passed their checks on one reading of the coupon, and the first has committed its use. */
  ghost predicate FirstUseCommitted(l: Ledger, l1: Ledger, r: Request, id: CouponId, row: Cart, snapshot: nat)
  {
    id in l.coupons && FinishApply(l, r, id, row, snapshot) == CommitTo(l1)
  }

  /** A cap in the column needs no lock: the UPDATE of the second refuses the use beyond it. */
  lemma ColumnCapNeedsNoLock(l: Ledger, l1: Ledger, r: Request, id: CouponId, row: Cart, row': Cart, snapshot: nat, snapshot': nat)
    requires FirstUseCommitted(l, l1, r, id, row, snapshot)
    requires l.coupons[id].usageLimit == Some(l.coupons[id].used + 1)
    ensures CountUse(l1, id, l.coupons[id], row', snapshot') == Refuse(Refused(CouponLimitReached))
  {
  }

  /** A cap that is only in the JSON rests on the lock: without it the second use would be counted beyond the cap. */
  lemma JsonCapRestsOnTheLock(l: Ledger, l1: Ledger, r: Request, r': Request, id: CouponId, row: Cart, row': Cart,
                              snapshot: nat, snapshot': nat)
    requires FirstUseCommitted(l, l1, r, id, row, snapshot)
    requires l.coupons[id].usageLimit.None? && CapOf(l.coupons[id]) == Limit(l.coupons[id].used + 1)
    requires Recalculated(row'.(applied := row'.applied + [Application(id, snapshot')])).Ok?
    ensures CountUse(l1, id, l.coupons[id], row', snapshot').Go?
    ensures var move := FinishApply(l1, r', id, row', snapshot');
            && move.CommitTo? && id in move.ledger.coupons
            && move.ledger.coupons[id].used == l.coupons[id].used + 2 && !WithinCap(move.ledger.coupons[id])
  {
  }
}
