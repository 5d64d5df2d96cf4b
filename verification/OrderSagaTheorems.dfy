/** The promises of the saga, over every run. */
module OrderSagaTheorems {
  import opened OrderWorld
  import opened OrderSaga
  import opened OrderSagaProofs

  // ── money and stock ──

  /** Capture executes only on a delivered row, never together with a void, and
      never twice, in any run. */
  lemma {:induction false} CaptureOnlyAfterDelivery(es: seq<Event>, e: Event)
    requires After(es).To? && Next(After(es).next, e).To?
    ensures var s, s' := After(es).next, Next(After(es).next, e).next;
            && (s'.w.captures != s.w.captures ==> s.w.status == Delivered && s.pc.Capturing?)
            && s'.w.captures + s'.w.voids <= 1
  {
    EveryRunKeepsInv(es);
    NextKeeps(After(es).next, e);
    CapturingIsAStep(After(es).next, e);
  }

  lemma CapturingIsAStep(s: State, e: Event)
    requires Inv(s) && Next(s, e).To?
    ensures s.pc.Capturing? || Next(s, e).next.w.captures == s.w.captures
  {
    match e {
      case Effect(grant, short) => OnlyCaptureCaptures(s, grant, short);
      case LateRuns(z, grant, short) =>
        assert LateOk(s, z);
        OnlyCaptureCaptures(s.(pc := z.pc, att := if z.called then Called else Idle), grant, short);
      case Around(_) =>
      case InChild(step) => MarksCaptureNothing(s, step);
      case _ =>
    }
  }

  lemma MarksCaptureNothing(s: State, e: ChildEvent)
    requires ChildStep(s, e).To?
    ensures ChildStep(s, e).next.w.captures == s.w.captures
  {
  }

  lemma OnlyCaptureCaptures(s: State, grant: bool, short: CancelReason)
    requires EffectStep(s, grant, short).To?
    ensures EffectStep(s, grant, short).next.w.captures == s.w.captures || (s.pc.Capturing? && s.w.auth == Held)
  {
    match s.pc {
      case Forward(_) =>
      case Voiding(_) =>
      case _ =>
    }
  }

  /** The no-rider verdict is never too late, so its fall-through to capture is
      unreachable: a child that found no rider leaves the row in the kitchen. */
  lemma {:induction false} NoRiderIsNeverTooLate(es: seq<Event>)
    requires After(es).To?
    ensures var s := After(es).next; s.pc == TryingCancel(NoRiderAvailable) ==> s.att != Done(TooLate)
    ensures var s := After(es).next;
            s.child.ChildNoRider? && !s.pc.Raised? ==> s.w.status.Ready? || Dying(s.w.status)
  {
    EveryRunKeepsInv(es);
  }

  /** A late authorize takes money. */
  predicate TakesHold(s: State, e: Event) {
    e.LateRuns? && e.z in s.late && e.z == Late(Forward(Authorize), false) && e.grant && s.w.auth == NoAuth
  }

  predicate Voids(s: State, e: Event) {
    || (e.Effect? && s.pc.Voiding? && s.att.Idle?)
    || (e.LateRuns? && e.z in s.late && e.z.pc.Voiding? && !e.z.called)
  }

  /** Some abandoned authorize took money, and no void has run since. */
  ghost predicate LateHold(es: seq<Event>) {
    |es| > 0 && After(es[..|es| - 1]).To? &&
    var s, e := After(es[..|es| - 1]).next, es[|es| - 1];
    TakesHold(s, e) || (LateHold(es[..|es| - 1]) && !Voids(s, e))
  }

  /** A late reserve takes stock. */
  predicate TakesStock(s: State, e: Event) {
    e.LateRuns? && e.z in s.late && e.z == Late(Forward(Reserve), false) && e.grant && s.w.reservation == NoReservation
  }

  predicate Frees(s: State, e: Event) {
    || (e.Effect? && s.pc.Releasing? && s.att.Idle?)
    || (e.LateRuns? && e.z in s.late && e.z.pc.Releasing? && !e.z.called)
    || e == Around(Reap)
  }

  /** Some abandoned reserve took stock, and no release and no reaper pass has run
      since. */
  ghost predicate LateStock(es: seq<Event>) {
    |es| > 0 && After(es[..|es| - 1]).To? &&
    var s, e := After(es[..|es| - 1]).next, es[|es| - 1];
    TakesStock(s, e) || (LateStock(es[..|es| - 1]) && !Frees(s, e))
  }

  /** The run will not void any more of its own accord, or never had to. */
  predicate PastVoid(s: State) {
    match s.pc
    case Beginning(_, undo) => !undo.void
    case Voiding(_) => s.att.Done?
    case Releasing(_) => true
    case Finishing(_) => true
    case Returned(RunCancelled) => true
    case _ => false
  }

  predicate PastRelease(s: State) {
    match s.pc
    case Forward(Reserve) => s.att.Done? && s.att.answer.Bad?
    case Beginning(_, undo) => !undo.release
    case Voiding(undo) => !undo.release
    case Releasing(_) => s.att.Done?
    case Finishing(_) => true
    case Returned(RunCancelled) => true
    case _ => false
  }

  predicate HoldOk(s: State, lateHold: bool) {
    && (lateHold ==> s.w.auth == Held || s.w.auth == Captured)
    && (PastVoid(s) && s.w.auth == Held ==> lateHold)
  }

  predicate StockIsLate(s: State, lateStock: bool) {
    && (lateStock ==> s.w.reservation == Active || s.w.reservation == Consumed)
    && (PastRelease(s) && s.w.reservation == Active ==> lateStock)
  }

  /** What one effect does to the money. */
  function MoneyAfter(s: State, grant: bool): Auth {
    if !s.att.Idle? then s.w.auth
    else if s.pc == Forward(Authorize) && s.w.auth == NoAuth then if grant then Held else Refused
    else if s.pc.Voiding? && s.w.auth == Held then Voided
    else if s.pc.Capturing? && s.w.auth == Held then Captured
    else s.w.auth
  }

  /** What one effect does to the stock. */
  function StockAfter(s: State, grant: bool): Reservation {
    if !s.att.Idle? then s.w.reservation
    else if s.pc == Forward(Reserve) && s.w.reservation == NoReservation && grant then Active
    else if s.pc.Releasing? && s.w.reservation == Active then Released
    else if s.pc.Settling? && s.w.reservation == Active then Consumed
    else s.w.reservation
  }

  lemma ForwardOnHeld(s: State, grant: bool, short: CancelReason)
    requires EffectStep(s, grant, short).To? && (s.pc.Creating? || s.pc.Forward?)
    ensures var w' := EffectStep(s, grant, short).next.w;
            w'.auth == MoneyAfter(s, grant) && w'.reservation == StockAfter(s, grant)
  {
    match s.pc {
      case Creating =>
      case Forward(Reserve) =>
      case Forward(Authorize) =>
      case Forward(Confirm) =>
    }
  }

  lemma UnwindOnHeld(s: State, grant: bool, short: CancelReason)
    requires EffectStep(s, grant, short).To? && (s.pc.Beginning? || s.pc.Voiding? || s.pc.Releasing? || s.pc.Finishing?)
    ensures var w' := EffectStep(s, grant, short).next.w;
            w'.auth == MoneyAfter(s, grant) && w'.reservation == StockAfter(s, grant)
  {
  }

  /** What one effect does to the money and to the stock. */
  lemma EffectOnHeld(s: State, grant: bool, short: CancelReason)
    requires EffectStep(s, grant, short).To?
    ensures var w' := EffectStep(s, grant, short).next.w;
            w'.auth == MoneyAfter(s, grant) && w'.reservation == StockAfter(s, grant)
  {
    if s.pc.Creating? || s.pc.Forward? {
      ForwardOnHeld(s, grant, short);
    } else if s.pc.Beginning? || s.pc.Voiding? || s.pc.Releasing? || s.pc.Finishing? {
      UnwindOnHeld(s, grant, short);
    }
  }

  lemma EffectOnPc(s: State, grant: bool, short: CancelReason)
    requires EffectStep(s, grant, short).To?
    ensures var s' := EffectStep(s, grant, short).next;
            && (s'.pc == s.pc || s'.pc.Raised?)
            && (s.pc == Forward(Reserve) && s'.att.Done? && s'.att.answer.Bad? ==> s'.w.reservation == NoReservation)
  {
    match s.pc {
      case Creating =>
      case Forward(Reserve) =>
      case Forward(Authorize) =>
      case Forward(Confirm) =>
      case Beginning(_, _) =>
      case TryingCancel(_) =>
      case Voiding(_) =>
      case Releasing(_) =>
      case Finishing(_) =>
      case Capturing =>
      case Settling =>
      case _ =>
    }
  }

  lemma LateIs(s: State, z: Late, grant: bool, short: CancelReason)
    requires LateStep(s, z, grant, short).To?
    ensures var shadow, s' := s.(pc := z.pc, att := if z.called then Called else Idle), LateStep(s, z, grant, short).next;
            && s'.w.auth == MoneyAfter(shadow, grant) && s'.w.reservation == StockAfter(shadow, grant)
            && s'.pc == s.pc && s'.att == s.att
  {
    var shadow := s.(pc := z.pc, att := if z.called then Called else Idle);
    EffectOnHeld(shadow, grant, short);
  }

  lemma EffectsKeepWhatIsHeld(s: State, grant: bool, short: CancelReason, hold: bool, stock: bool)
    requires HoldOk(s, hold) && StockIsLate(s, stock) && EffectStep(s, grant, short).To?
    ensures HoldOk(EffectStep(s, grant, short).next, hold && !Voids(s, Effect(grant, short)))
    ensures StockIsLate(EffectStep(s, grant, short).next, stock && !Frees(s, Effect(grant, short)))
  {
    EffectOnHeld(s, grant, short);
    EffectOnPc(s, grant, short);
  }

  lemma LateKeepsWhatIsHeld(s: State, e: Event, hold: bool, stock: bool)
    requires HoldOk(s, hold) && StockIsLate(s, stock) && Next(s, e).To? && e.LateRuns?
    ensures HoldOk(Next(s, e).next, TakesHold(s, e) || (hold && !Voids(s, e)))
    ensures StockIsLate(Next(s, e).next, TakesStock(s, e) || (stock && !Frees(s, e)))
  {
    LateIs(s, e.z, e.grant, e.short);
  }

  lemma AnswersKeepWhatIsHeld(s: State, hold: bool, stock: bool)
    requires Core(s) && HoldOk(s, hold) && StockIsLate(s, stock) && AnswerStep(s).To?
    ensures HoldOk(AnswerStep(s).next, hold) && StockIsLate(AnswerStep(s).next, stock)
  {
    match s.pc {
      case Forward(Reserve) =>
      case Forward(Authorize) =>
      case Beginning(_, _) =>
      case Voiding(_) =>
      case Releasing(_) =>
      case Finishing(_) =>
      case _ =>
    }
  }

  lemma WaitsKeepWhatIsHeld(s: State, e: WaitEvent, hold: bool, stock: bool)
    requires Core(s) && HoldOk(s, hold) && StockIsLate(s, stock) && WaitStep(s, e).To?
    ensures HoldOk(WaitStep(s, e).next, hold) && StockIsLate(WaitStep(s, e).next, stock)
  {
    match s.pc {
      case Forward(Reserve) =>
      case Forward(_) =>
      case Draining =>
      case _ =>
    }
  }

  lemma NextKeepsWhatIsHeld(s: State, e: Event, hold: bool, stock: bool)
    requires Inv(s) && HoldOk(s, hold) && StockIsLate(s, stock) && Next(s, e).To?
    ensures HoldOk(Next(s, e).next, TakesHold(s, e) || (hold && !Voids(s, e)))
    ensures StockIsLate(Next(s, e).next, TakesStock(s, e) || (stock && !Frees(s, e)))
  {
    match e {
      case Effect(grant, short) => EffectsKeepWhatIsHeld(s, grant, short, hold, stock);
      case LateRuns(_, _, _) => LateKeepsWhatIsHeld(s, e, hold, stock);
      case AnswerArrives => AnswersKeepWhatIsHeld(s, hold, stock);
      case Waits(wait) => WaitsKeepWhatIsHeld(s, wait, hold, stock);
      case Around(world) => WorldKeepsWhatIsHeld(s, world, hold, stock);
      case InChild(step) => ChildKeepsWhatIsHeld(s, step, hold, stock);
      case LoseAttempt =>
    }
  }

  lemma WorldKeepsWhatIsHeld(s: State, e: WorldEvent, hold: bool, stock: bool)
    requires HoldOk(s, hold) && StockIsLate(s, stock) && EnvStep(s, e).To?
    ensures HoldOk(EnvStep(s, e).next, hold) && StockIsLate(EnvStep(s, e).next, stock && !e.Reap?)
  {
  }

  /** What is held depends on the parent's place, the money and the stock alone. */
  lemma SameHeld(s: State, s': State, hold: bool, stock: bool)
    requires HoldOk(s, hold) && StockIsLate(s, stock) && s'.pc == s.pc && s'.att == s.att
    requires s'.w.auth == s.w.auth && s'.w.reservation == s.w.reservation
    ensures HoldOk(s', hold) && StockIsLate(s', stock)
  {
  }

  lemma ChildLeavesHeld(s: State, e: ChildEvent)
    requires ChildStep(s, e).To?
    ensures var s' := ChildStep(s, e).next;
            s'.pc == s.pc && s'.att == s.att && s'.w.auth == s.w.auth && s'.w.reservation == s.w.reservation
  {
  }

  lemma ChildKeepsWhatIsHeld(s: State, e: ChildEvent, hold: bool, stock: bool)
    requires HoldOk(s, hold) && StockIsLate(s, stock) && ChildStep(s, e).To?
    ensures HoldOk(ChildStep(s, e).next, hold) && StockIsLate(ChildStep(s, e).next, stock)
  {
    ChildLeavesHeld(s, e);
    SameHeld(s, ChildStep(s, e).next, hold, stock);
  }

  lemma {:induction false} WhatIsHeldIsLate(es: seq<Event>)
    requires After(es).To?
    ensures HoldOk(After(es).next, LateHold(es)) && StockIsLate(After(es).next, LateStock(es))
  {
    if |es| > 0 {
      var before, e := es[..|es| - 1], es[|es| - 1];
      WhatIsHeldIsLate(before);
      EveryRunKeepsInv(before);
      NextKeepsWhatIsHeld(After(before).next, e, LateHold(before), LateStock(before));
    }
  }

  /** Every run that returns is balanced. A cancelled order was never captured; it
      holds money exactly when an abandoned authorize took it after the void, and
      stock exactly when an abandoned reserve took it after the release and no reaper
      has come by. A settled one was paid once; its stock was consumed unless the
      reaper had already expired it. */
  lemma {:induction false} ReturningRunsAreBalanced(es: seq<Event>)
    requires After(es).To? && After(es).next.pc.Returned?
    ensures var s := After(es).next;
            match s.pc.outcome
            case RunCancelled =>
              && s.w.status == Cancelled && s.w.captures == 0
              && (s.w.auth == Held <==> LateHold(es))
              && (s.w.reservation == Active <==> LateStock(es))
            case RunSettled =>
              && s.w.status == Settled && s.w.captures == 1 && s.w.voids == 0
              && (s.w.reservation == Consumed || s.w.reservation == Expired)
  {
    EveryRunKeepsInv(es);
    WhatIsHeldIsLate(es);
  }

  predicate Punctual(es: seq<Event>) { forall i :: 0 <= i < |es| ==> !es[i].LateRuns? }

  lemma {:induction false} PunctualMeansNothingLate(es: seq<Event>)
    requires Punctual(es)
    ensures !LateHold(es) && !LateStock(es)
  {
    if |es| > 0 {
      PunctualMeansNothingLate(es[..|es| - 1]);
    }
  }

  /** So a cancelled run in which no abandoned attempt ran on holds nothing, although
      the steps that timed out may have taken effect. */
  lemma {:induction false} PunctualRunsHoldNothing(es: seq<Event>)
    requires After(es).To? && After(es).next.pc == Returned(RunCancelled) && Punctual(es)
    ensures After(es).next.w.auth != Held && After(es).next.w.reservation != Active
  {
    PunctualMeansNothingLate(es);
    ReturningRunsAreBalanced(es);
  }

  /** Which of the two it is: a settled run's reservation is consumed exactly when
      no reaper pass of the run found it active. */
  lemma {:induction false} SettledStockIsConsumedUnlessReaped(es: seq<Event>)
    requires After(es).To?
    ensures After(es).next.w.reservation == Expired <==> ReaperFound(es)
    ensures After(es).next.pc == Returned(RunSettled) ==>
              (After(es).next.w.reservation == Consumed <==> !ReaperFound(es))
  {
    EveryRunKeepsInv(es);
    if |es| > 0 {
      var before, e := es[..|es| - 1], es[|es| - 1];
      SettledStockIsConsumedUnlessReaped(before);
      ReservationEnds(After(before).next, e);
    }
  }

  /** Some reaper pass of the run met an active reservation. */
  ghost predicate ReaperFound(es: seq<Event>) {
    |es| > 0 &&
    (ReaperFound(es[..|es| - 1])
     || (es[|es| - 1] == Around(Reap)
         && After(es[..|es| - 1]).To? && After(es[..|es| - 1]).next.w.reservation == Active))
  }

  /** A finished reservation stays as it finished; only the reaper expires one. */
  lemma ReservationEnds(s: State, e: Event)
    requires Next(s, e).To?
    ensures var s' := Next(s, e).next;
            && (s.w.reservation == Expired ==> s'.w.reservation == Expired)
            && (s'.w.reservation == Expired && s.w.reservation != Expired
                <==> e == Around(Reap) && s.w.reservation == Active)
  {
    match e {
      case Effect(grant, short) => AttemptsNeverExpireStock(s, grant, short);
      case LateRuns(z, grant, short) =>
        AttemptsNeverExpireStock(s.(pc := z.pc, att := if z.called then Called else Idle), grant, short);
      case Around(_) =>
      case Waits(_) =>
      case InChild(_) =>
      case _ =>
    }
  }

  lemma AttemptsNeverExpireStock(s: State, grant: bool, short: CancelReason)
    requires EffectStep(s, grant, short).To?
    ensures EffectStep(s, grant, short).next.w.reservation == Expired <==> s.w.reservation == Expired
  {
    EffectOnHeld(s, grant, short);
  }

  // ── the referee ──

  /** CANCELLING is entered only before pickup; it and PICKED_UP are never both
      written; and a returning run that reached pickup settles, whatever cancel
      signals came and whenever. */
  lemma {:induction false} CustomerVersusCourier(es: seq<Event>, e: Event)
    requires After(es).To? && Next(After(es).next, e).To?
    ensures var s, s' := After(es).next, Next(After(es).next, e).next;
            && (s'.w.status == Cancelling && s.w.status != Cancelling ==>
                  s.w.status.Placed? || s.w.status.Validated? || s.w.status.PaymentCleared?
                  || s.w.status.Confirmed? || InKitchen(s.w.status))
            && !(Cancelling in s'.w.written && PickedUp in s'.w.written)
            && (s'.pc.Returned? ==> (PickedUp in s'.w.written <==> s'.pc.outcome == RunSettled))
  {
    var s := After(es).next;
    EveryRunKeepsInv(es);
    NextKeeps(s, e);
    OneOfTheTwo(Next(s, e).next);
    if Next(s, e).next.w.status == Cancelling && s.w.status != Cancelling {
      CancellingComesFromAnAttempt(s, e);
    }
  }

  lemma OneOfTheTwo(s: State)
    requires Inv(s)
    ensures !(Cancelling in s.w.written && PickedUp in s.w.written)
    ensures s.pc.Returned? ==> (PickedUp in s.w.written <==> s.pc.outcome == RunSettled)
  {
  }

  /** The row is stamped CANCELLING by BEGIN_CANCEL at the stage it names or by
      TRY_BEGIN_CANCEL in the kitchen window, run now or abandoned earlier. */
  lemma CancellingComesFromAnAttempt(s: State, e: Event)
    requires Inv(s) && Next(s, e).To? && Next(s, e).next.w.status == Cancelling && s.w.status != Cancelling
    ensures e.Effect? || e.LateRuns?
    ensures var pc := if e.LateRuns? then e.z.pc else s.pc;
            && (e.LateRuns? ==> e.z in s.late)
            && if pc.Beginning? then s.w.status == pc.expected else pc.TryingCancel? && InKitchen(s.w.status)
    ensures s.w.status.Placed? || s.w.status.Validated? || s.w.status.PaymentCleared? || s.w.status.Confirmed? || InKitchen(s.w.status)
  {
    match e {
      case Effect(grant, short) => CancellingEffect(s, grant, short);
      case LateRuns(z, grant, short) =>
        assert LateOk(s, z);
        CancellingEffect(s.(pc := z.pc, att := if z.called then Called else Idle), grant, short);
      case Around(_) =>
      case InChild(step) => MarksCancelNothing(s, step);
      case _ =>
    }
  }

  lemma MarksCancelNothing(s: State, e: ChildEvent)
    requires ChildStep(s, e).To?
    ensures ChildStep(s, e).next.w.status == s.w.status || WithCourier(ChildStep(s, e).next.w.status)
  {
  }

  lemma CancellingEffect(s: State, grant: bool, short: CancelReason)
    requires EffectStep(s, grant, short).To?
    requires EffectStep(s, grant, short).next.w.status == Cancelling && s.w.status != Cancelling
    ensures if s.pc.Beginning? then s.w.status == s.pc.expected else s.pc.TryingCancel? && InKitchen(s.w.status)
  {
    match s.pc {
      case Beginning(_, _) =>
      case TryingCancel(_) =>
      case Accepting =>
      case Forward(_) =>
      case _ =>
    }
  }
}
