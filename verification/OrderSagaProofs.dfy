/** What every run of the saga keeps, and what every run that ends has done. */
module OrderSagaProofs {
  import opened OrderWorld
  import opened OrderSaga

  // ── the invariant ──

  /** The history fields agree with the present. */
  predicate History(w: World) {
    && w.captures == (if w.auth == Captured then 1 else 0)
    && w.voids == (if w.auth == Voided then 1 else 0)
    && (PickedUp in w.written <==> WithCourier(w.status))
    && (Cancelling in w.written <==> Dying(w.status))
    && (w.reason.Stamped? <==> Dying(w.status))
    && (w.status.Ready? || WithCourier(w.status) ==> Ready in w.written)
    && (Ready in w.written ==> w.status.Ready? || WithCourier(w.status) || Dying(w.status))
  }

  predicate Begun(w: World, undo: Undo) { w.status == Cancelling && w.reason == Stamped(undo.reason) }

  predicate ForwardOk(w: World, step: ForwardStep, att: Attempt) {
    && (w.status == Stage(step) || w.status == Target(step))
    && (!w.auth.Captured? && !w.auth.Voided?)
    && match step
       case Reserve =>
         && w.auth == NoAuth
         && (w.status == Validated || att.Called? ==> w.reservation != NoReservation)
         && (att.Done? ==> if att.answer.Good? then w.status == Validated
                           else att.answer.Bad? && (att.answer.why.ItemUnavailable? || att.answer.why.AtCapacity?))
       case Authorize =>
         && w.reservation != NoReservation
         && (w.status == PaymentCleared || att.Called? ==> w.auth == Held)
         && (att.Done? ==> if att.answer.Good? then w.status == PaymentCleared
                           else att.answer == Bad(PaymentDeclined) && w.auth == Refused)
       case Confirm =>
         && w.reservation != NoReservation && w.auth == Held
         && (att.Done? ==> att.answer.Good? && w.status == Confirmed)
  }

  /** A row that a cancellation finds: at the stage it names, beyond it, or cancelling. */
  predicate Reached(expected: Status, status: Status) {
    match status
    case Placed => expected.Placed?
    case Validated => expected.Placed? || expected.Validated?
    case PaymentCleared => expected.Placed? || expected.Validated? || expected.PaymentCleared?
    case Confirmed => expected.Placed? || expected.Validated? || expected.PaymentCleared? || expected.Confirmed?
    case Cancelling => expected.Placed? || expected.Validated? || expected.PaymentCleared? || expected.Confirmed?
    case _ => false
  }

  predicate PcOk(w: World, pc: Pc, att: Attempt, child: Child, childCancel: bool) {
    match pc
    case Creating =>
      && (w.status.Absent? || w.status.Placed?) && (att.Done? ==> w.status == Placed)
      && w.auth == NoAuth && w.reservation == NoReservation && child.NotStarted?
    case Forward(step) => ForwardOk(w, step, att) && child.NotStarted?
    case Deciding => w.status == Confirmed && w.auth == Held && w.reservation != NoReservation && child.NotStarted?
    case StartingChild => w.status == Confirmed && w.auth == Held && w.reservation != NoReservation && child.NotStarted?
    case Accepting =>
      && (w.status.Confirmed? || w.status.Accepted? || w.status.Preparing? || w.status.Ready? || w.status.PickedUp? || w.status.Delivered?)
      && (att.Done? ==> w.status != Confirmed)
      && w.auth == Held && w.reservation != NoReservation && !child.NotStarted?
    case Racing =>
      && (w.status.Accepted? || w.status.Preparing? || w.status.Ready? || w.status.PickedUp? || w.status.Delivered?)
      && w.auth == Held && w.reservation != NoReservation && !child.NotStarted?
    case TryingCancel(why) =>
      && (w.status.Accepted? || w.status.Preparing? || w.status.Ready? || w.status.PickedUp? || w.status.Delivered? || w.status.Cancelling?)
      && (w.status == Cancelling ==> w.reason == Stamped(why))
      && w.auth == Held && w.reservation != NoReservation && !child.NotStarted?
      && (why.CustomerCancelled? || (why.NoRiderAvailable? && child.ChildNoRider?))
      && (att.Done? ==> if att.answer.Good? then w.status == Cancelling
                        else att.answer.TooLate? && (w.status.PickedUp? || w.status.Delivered?))
    case Draining =>
      && w.status == Cancelling && w.reason == Stamped(CustomerCancelled)
      && w.auth == Held && w.reservation != NoReservation && !child.NotStarted? && childCancel
    case AwaitingChild =>
      (w.status.PickedUp? || w.status.Delivered?) && w.auth == Held && w.reservation != NoReservation && !child.NotStarted?
    case FreeingDispatch =>
      && w.status == Cancelling && w.reason == Stamped(NoRiderAvailable)
      && w.auth == Held && w.reservation != NoReservation && child.ChildNoRider?
    case Beginning(expected, undo) =>
      && Reached(expected, w.status)
      && (!w.auth.Captured? && !w.auth.Voided?) && child.NotStarted?
      && (w.status == Cancelling ==> Begun(w, undo))
      && (att.Done? ==> w.status == Cancelling)
    case Voiding(undo) => Begun(w, undo) && w.auth != Captured && (child.NotStarted? || Terminal(child))
    case Releasing(undo) => Begun(w, undo) && w.auth != Captured && (child.NotStarted? || Terminal(child))
    case Finishing(undo) =>
      && Dying(w.status) && w.reason == Stamped(undo.reason) && (att.Done? ==> w.status == Cancelled)
      && w.auth != Captured && (child.NotStarted? || Terminal(child))
    case Capturing =>
      && w.status == Delivered && child.ChildDelivered? && w.reservation != NoReservation
      && (w.auth.Held? || w.auth.Captured?) && (att.Done? ==> w.auth == Captured)
    case Settling =>
      && (w.status.Delivered? || w.status.Settled?) && child.ChildDelivered? && w.auth == Captured
      && w.reservation != NoReservation
      && (att.Called? || att.Done? || w.status == Settled ==> w.reservation != Active)
      && (att.Done? ==> w.status == Settled)
    case Returned(RunCancelled) =>
      w.status == Cancelled && w.auth != Captured && (child.NotStarted? || Terminal(child))
    case Returned(RunSettled) =>
      && w.status == Settled && w.auth == Captured && (w.reservation.Consumed? || w.reservation.Expired?)
      && child.ChildDelivered?
    case Raised => true
  }

  /** How far the row is allowed to be, given where the child stands. */
  predicate ChildOk(w: World, raised: bool, child: Child, foodReady: bool) {
    var st := w.status;
    var dying := Dying(st) || raised;
    match child
    case NotStarted => !InKitchen(st) && !WithCourier(st)
    case AwaitingFood => !WithCourier(st)
    case Assigning => foodReady && (st == Ready || dying)
    case PickingUp(marked) => ((st.Ready? || st.PickedUp?) || dying) && (marked ==> st == PickedUp || dying)
    case Riding => st == PickedUp || dying
    case Delivering(marked) => ((st.PickedUp? || st.Delivered?) || dying) && (marked ==> st == Delivered || dying)
    case CleaningUp => dying
    case ChildDelivered => (st.Delivered? || st.Settled?) || dying
    case ChildNoRider => Ready in w.written && (st == Ready || dying)
    case ChildCancelled => dying
    case ChildFailed => dying
  }

  /** Everything but the abandoned attempts. */
  predicate Core(s: State) {
    && History(s.w)
    && PcOk(s.w, s.pc, s.att, s.child, s.childCancel)
    && ChildOk(s.w, s.pc.Raised?, s.child, s.foodReady)
    && StockOk(s.w, s.pc)
    && (s.att.Called? ==> s.pc == Forward(Reserve) || s.pc == Forward(Authorize) || s.pc.Settling?)
    && (s.foodReady ==> Ready in s.w.written)
    && (s.childCancel ==> Dying(s.w.status))
  }

  predicate StockOk(w: World, pc: Pc) {
    && (w.reservation.Released? ==> Dying(w.status))
    && (w.reservation.Consumed? ==> pc.Settling? || pc == Returned(RunSettled))
  }

  predicate Unwinding(pc: Pc) { pc.Voiding? || pc.Releasing? || pc.Finishing? || pc == Returned(RunCancelled) }

  /** What an abandoned attempt can still meet: its step is the one that runs, or is
      over for good. Only the forward steps, whose deadline may pass them by, can
      still have an effect when they are over. */
  predicate LateOk(s: State, z: Late) {
    var w := s.w;
    match z.pc
    case Creating => s.pc.Creating? || w.status != Absent
    case Forward(Reserve) => !s.pc.Creating? && (z.called ==> w.reservation != NoReservation)
    case Forward(Authorize) =>
      && (z.called ==> w.auth.Held? || w.auth.Captured? || w.auth.Voided?)
      && !s.pc.Creating? && s.pc != Forward(Reserve)
    case Forward(Confirm) => !s.pc.Creating? && s.pc != Forward(Reserve) && s.pc != Forward(Authorize)
    case Accepting => !s.child.NotStarted?
    case TryingCancel(_) => s.pc == z.pc || WithCourier(w.status) || Dying(w.status) || s.pc.Raised?
    case Beginning(expected, _) =>
      && (s.pc == z.pc || Dying(w.status) || s.pc.Raised?)
      && (expected.Placed? || expected.Validated? || expected.PaymentCleared? || expected.Confirmed?)
    case Voiding(_) => Unwinding(s.pc)
    case Releasing(_) => Unwinding(s.pc)
    case Finishing(_) => s.pc == z.pc || w.status == Cancelled
    case Capturing => s.pc.Capturing? || w.auth == Captured
    case Settling =>
      && (s.pc.Settling? || s.pc == Returned(RunSettled))
      && w.reservation != NoReservation && (z.called ==> w.reservation != Active)
    case _ => true
  }

  ghost predicate Inv(s: State) { Core(s) && forall z :: z in s.late ==> LateOk(s, z) }

  lemma EnvKeeps(s: State, e: WorldEvent)
    requires Core(s) && EnvStep(s, e).To?
    ensures Core(EnvStep(s, e).next)
  {
    match e {
      case SignalDecision(v) => SignalKeeps(s, s.(decision := EnvStep(s, e).next.decision));
      case SignalCancel => SignalKeeps(s, s.(cancelRequested := true));
      case SignalFoodReady => SignalKeeps(s, s.(foodReady := true));
      case KitchenPreparing => KitchenKeeps(s, Preparing);
      case KitchenReady => KitchenKeeps(s, Ready);
      case Reap => ReapKeeps(s);
    }
  }

  /** A signal only sets its own flag. */
  lemma SignalKeeps(s: State, s': State)
    requires Core(s)
    requires s' == s.(decision := s'.decision, cancelRequested := s'.cancelRequested, foodReady := s'.foodReady)
    requires !s.decision.Undecided? ==> s'.decision == s.decision
    requires s.cancelRequested ==> s'.cancelRequested
    requires s.foodReady ==> s'.foodReady
    requires s'.foodReady ==> Ready in s.w.written
    ensures Core(s')
  {
  }

  lemma KitchenKeeps(s: State, target: Status)
    requires Core(s)
    requires (s.w.status.Accepted? && target.Preparing?) || (s.w.status.Preparing? && target.Ready?)
    ensures Core(s.(w := Write(s.w, target)))
  {
  }

  lemma ReapKeeps(s: State)
    requires Core(s)
    ensures Core(s.(w := FinishReservation(s.w, Expired)))
  {
  }

  lemma ReserveKeeps(s: State, grant: bool, short: CancelReason)
    requires Core(s) && (s.pc.Creating? || s.pc == Forward(Reserve)) && EffectStep(s, grant, short).To?
    ensures Core(EffectStep(s, grant, short).next)
  {
    match s.att {
      case Idle =>
      case _ =>
    }
  }

  lemma AuthorizeKeeps(s: State, grant: bool, short: CancelReason)
    requires Core(s) && s.pc == Forward(Authorize) && EffectStep(s, grant, short).To?
    ensures Core(EffectStep(s, grant, short).next)
  {
  }

  lemma ConfirmKeeps(s: State, grant: bool, short: CancelReason)
    requires Core(s) && s.pc == Forward(Confirm) && EffectStep(s, grant, short).To?
    ensures Core(EffectStep(s, grant, short).next)
  {
  }

  lemma AcceptKeeps(s: State, grant: bool, short: CancelReason)
    requires Core(s) && s.pc.Accepting? && EffectStep(s, grant, short).To?
    ensures Core(EffectStep(s, grant, short).next)
  {
  }

  lemma TryCancelKeeps(s: State, grant: bool, short: CancelReason)
    requires Core(s) && (s.pc.TryingCancel? || s.pc.FreeingDispatch?) && EffectStep(s, grant, short).To?
    ensures Core(EffectStep(s, grant, short).next)
  {
  }

  lemma BeginKeeps(s: State, grant: bool, short: CancelReason)
    requires Core(s) && s.pc.Beginning? && EffectStep(s, grant, short).To?
    ensures Core(EffectStep(s, grant, short).next)
  {
  }

  lemma VoidKeeps(s: State, grant: bool, short: CancelReason)
    requires Core(s) && s.pc.Voiding? && EffectStep(s, grant, short).To?
    ensures Core(EffectStep(s, grant, short).next)
  {
  }

  lemma ReleaseKeeps(s: State, grant: bool, short: CancelReason)
    requires Core(s) && s.pc.Releasing? && EffectStep(s, grant, short).To?
    ensures Core(EffectStep(s, grant, short).next)
  {
  }

  lemma FinishKeeps(s: State, grant: bool, short: CancelReason)
    requires Core(s) && s.pc.Finishing? && EffectStep(s, grant, short).To?
    ensures Core(EffectStep(s, grant, short).next)
  {
    match s.w.status {
      case Cancelling =>
      case _ =>
    }
  }

  lemma CaptureKeeps(s: State, grant: bool, short: CancelReason)
    requires Core(s) && s.pc.Capturing? && EffectStep(s, grant, short).To?
    ensures Core(EffectStep(s, grant, short).next)
  {
  }

  lemma SettleKeeps(s: State, grant: bool, short: CancelReason)
    requires Core(s) && s.pc.Settling? && EffectStep(s, grant, short).To?
    ensures Core(EffectStep(s, grant, short).next)
  {
  }

  lemma EffectKeeps(s: State, grant: bool, short: CancelReason)
    requires Core(s) && EffectStep(s, grant, short).To?
    ensures Core(EffectStep(s, grant, short).next)
  {
    match s.pc {
      case Creating => ReserveKeeps(s, grant, short);
      case Forward(Reserve) => ReserveKeeps(s, grant, short);
      case Forward(Authorize) => AuthorizeKeeps(s, grant, short);
      case Forward(Confirm) => ConfirmKeeps(s, grant, short);
      case Accepting => AcceptKeeps(s, grant, short);
      case TryingCancel(_) => TryCancelKeeps(s, grant, short);
      case FreeingDispatch => TryCancelKeeps(s, grant, short);
      case Beginning(_, _) => BeginKeeps(s, grant, short);
      case Voiding(_) => VoidKeeps(s, grant, short);
      case Releasing(_) => ReleaseKeeps(s, grant, short);
      case Finishing(_) => FinishKeeps(s, grant, short);
      case Capturing => CaptureKeeps(s, grant, short);
      case Settling => SettleKeeps(s, grant, short);
      case _ =>
    }
  }

  lemma AnswerKeeps(s: State)
    requires Core(s) && AnswerStep(s).To?
    ensures Core(AnswerStep(s).next)
  {
    match s.pc {
      case Creating =>
      case Forward(_) =>
      case TryingCancel(_) =>
      case Beginning(_, _) =>
      case _ =>
    }
  }

  lemma LoseKeeps(s: State)
    requires Core(s)
    ensures Core(s.Abandon().(att := Idle))
  {
    LosingKeeps(s.w, s.pc, s.att, s.child, s.childCancel);
  }

  lemma LosingKeeps(w: World, pc: Pc, att: Attempt, child: Child, childCancel: bool)
    requires PcOk(w, pc, att, child, childCancel)
    ensures PcOk(w, pc, Idle, child, childCancel)
  {
  }

  lemma DecideKeeps(s: State, e: WaitEvent)
    requires Core(s) && (s.pc.Forward? || s.pc.Deciding? || s.pc.StartingChild?) && WaitStep(s, e).To?
    ensures Core(WaitStep(s, e).next)
  {
  }

  lemma RaceKeeps(s: State)
    requires Core(s) && s.pc.Racing? && WaitStep(s, RaceWake).To?
    ensures Core(WaitStep(s, RaceWake).next)
  {
    match s.child {
      case ChildNoRider =>
      case ChildDelivered =>
      case _ =>
    }
  }

  lemma ChildEndKeeps(s: State)
    requires Core(s) && (s.pc.AwaitingChild? || s.pc.Draining?) && WaitStep(s, ChildEnds).To?
    ensures Core(WaitStep(s, ChildEnds).next)
  {
  }

  lemma WaitKeeps(s: State, e: WaitEvent)
    requires Core(s) && WaitStep(s, e).To?
    ensures Core(WaitStep(s, e).next)
  {
    match e {
      case RaceWake => RaceKeeps(s);
      case ChildEnds => ChildEndKeeps(s);
      case _ => DecideKeeps(s, e);
    }
  }

  /** A mark that moves the row leaves the parent where it may be. */
  lemma MayMark(w: World, pc: Pc, att: Attempt, child: Child, c: Child, childCancel: bool)
    requires PcOk(w, pc, att, child, childCancel) && !child.NotStarted? && !Terminal(child) && !c.NotStarted?
    requires w.status.Ready? || w.status.PickedUp?
    ensures PcOk(Write(w, if w.status.Ready? then PickedUp else Delivered), pc, att, c, childCancel)
  {
  }

  lemma MovedRowKeeps(s: State, c: Child)
    requires Core(s) && !s.child.NotStarted? && !Terminal(s.child) && !c.NotStarted?
    requires (s.w.status.Ready? && c == PickingUp(true)) || (s.w.status.PickedUp? && c == Delivering(true))
    ensures Core(s.(w := Write(s.w, if s.w.status.Ready? then PickedUp else Delivered), child := c))
  {
    MayMark(s.w, s.pc, s.att, s.child, c, s.childCancel);
  }

  lemma PickUpMarkKeeps(s: State)
    requires Core(s) && s.child == PickingUp(false)
    ensures Core(ChildMark(s, Move(s.w, Ready, PickedUp, NoStamp), PickingUp(true)).next)
  {
    match s.w.status {
      case Ready => MovedRowKeeps(s, PickingUp(true));
      case PickedUp => ChildMoveKeeps(s, PickingUp(true));
      case _ => ChildMoveKeeps(s, ChildFailed);
    }
  }

  lemma DeliveryMarkKeeps(s: State)
    requires Core(s) && s.child == Delivering(false)
    ensures Core(ChildMark(s, Move(s.w, PickedUp, Delivered, NoStamp), Delivering(true)).next)
  {
    match s.w.status {
      case PickedUp => MovedRowKeeps(s, Delivering(true));
      case Delivered => ChildMoveKeeps(s, Delivering(true));
      case _ => ChildMoveKeeps(s, ChildFailed);
    }
  }

  /** A child step that leaves the row alone. */
  lemma ChildMoveKeeps(s: State, c: Child)
    requires Core(s) && !s.child.NotStarted? && !Terminal(s.child) && !c.NotStarted?
    requires ChildOk(s.w, s.pc.Raised?, c, s.foodReady)
    ensures Core(s.(child := c))
  {
    ChildMayMove(s.w, s.pc, s.att, s.child, c, s.childCancel);
  }

  lemma ChildMayMove(w: World, pc: Pc, att: Attempt, child: Child, c: Child, childCancel: bool)
    requires PcOk(w, pc, att, child, childCancel) && !child.NotStarted? && !Terminal(child) && !c.NotStarted?
    ensures PcOk(w, pc, att, c, childCancel)
  {
  }

  lemma ChildKeeps(s: State, e: ChildEvent)
    requires Core(s) && ChildStep(s, e).To?
    ensures Core(ChildStep(s, e).next)
  {
    if e.MarkLands? {
      if s.child.PickingUp? {
        PickUpMarkKeeps(s);
      } else {
        DeliveryMarkKeeps(s);
      }
    } else {
      ChildMoves(s, e);
      ChildMoveKeeps(s, ChildStep(s, e).next.child);
    }
  }

  /** Any other step moves the child alone, and not too far. */
  lemma ChildMoves(s: State, e: ChildEvent)
    requires Core(s) && ChildStep(s, e).To? && !e.MarkLands?
    ensures var c := ChildStep(s, e).next.child;
            ChildStep(s, e).next == s.(child := c) && ChildOk(s.w, s.pc.Raised?, c, s.foodReady) && !c.NotStarted?
    ensures !s.child.NotStarted? && !Terminal(s.child)
  {
  }

  // ── abandoned attempts ──

  /** What no step undoes. */
  predicate Onward(s: State, s': State) {
    && (s.w.status != Absent ==> s'.w.status != Absent)
    && (Dying(s.w.status) ==> Dying(s'.w.status))
    && (WithCourier(s.w.status) ==> WithCourier(s'.w.status) || Dying(s'.w.status))
    && (s.w.status == Cancelled ==> s'.w.status == Cancelled)
    && (s.w.status == Settled ==> s'.w.status == Settled)
    && (s.w.reservation != NoReservation ==> s'.w.reservation != NoReservation)
    && (s.w.reservation != NoReservation && s.w.reservation != Active ==> s'.w.reservation != Active)
    && (s.w.auth.Held? || s.w.auth.Captured? || s.w.auth.Voided? ==> s'.w.auth.Held? || s'.w.auth.Captured? || s'.w.auth.Voided?)
    && (s.w.auth == Captured ==> s'.w.auth == Captured)
    && (!s.child.NotStarted? ==> !s'.child.NotStarted?)
  }

  /** A step of the workflow is left only when it is over. */
  predicate Leaves(s: State, s': State) {
    && (s'.pc.Creating? ==> s.pc.Creating?)
    && (s'.pc == Forward(Reserve) ==> s.pc.Creating? || s.pc == s'.pc)
    && (s'.pc == Forward(Authorize) ==> s.pc.Creating? || s.pc == Forward(Reserve) || s.pc == s'.pc)
    && (s.pc.Raised? || s.pc.Returned? ==> s'.pc == s.pc)
    && (Unwinding(s.pc) ==> Unwinding(s'.pc))
    && (s'.pc != s.pc ==>
          match s.pc
          case Creating => s'.w.status != Absent
          case TryingCancel(_) => WithCourier(s'.w.status) || Dying(s'.w.status)
          case Beginning(_, _) => Dying(s'.w.status) || s'.pc.Raised?
          case Finishing(_) => s'.w.status == Cancelled
          case Capturing => s'.w.auth == Captured
          case Settling => s'.pc == Returned(RunSettled)
          case _ => true)
  }

  lemma LateStaysOk(s: State, s': State, z: Late)
    requires LateOk(s, z) && Onward(s, s') && Leaves(s, s')
    ensures LateOk(s', z)
  {
    match z.pc {
      case Forward(_) =>
      case _ =>
    }
  }

  /** An attempt given up at its own step. */
  lemma AbandonedIsOk(s: State)
    requires Core(s) && !s.att.Done?
    ensures LateOk(s, Late(s.pc, s.att.Called?))
  {
  }

  // every step goes onward

  lemma EnvGoesOn(s: State, e: WorldEvent)
    requires Core(s) && EnvStep(s, e).To?
    ensures Onward(s, EnvStep(s, e).next) && Leaves(s, EnvStep(s, e).next)
  {
    match e {
      case SignalDecision(_) =>
      case SignalCancel =>
      case SignalFoodReady =>
      case KitchenPreparing =>
      case KitchenReady =>
      case Reap =>
    }
  }

  lemma ForwardGoesOn(s: State, grant: bool, short: CancelReason)
    requires Core(s) && (s.pc.Creating? || s.pc.Forward?) && EffectStep(s, grant, short).To?
    ensures Onward(s, EffectStep(s, grant, short).next) && Leaves(s, EffectStep(s, grant, short).next)
  {
    match s.pc {
      case Creating =>
      case Forward(Reserve) =>
      case Forward(Authorize) =>
      case Forward(Confirm) =>
    }
  }

  lemma CancelGoesOn(s: State, grant: bool, short: CancelReason)
    requires Core(s) && (s.pc.TryingCancel? || s.pc.Beginning? || s.pc.Finishing?) && EffectStep(s, grant, short).To?
    ensures Onward(s, EffectStep(s, grant, short).next) && Leaves(s, EffectStep(s, grant, short).next)
  {
    match s.pc {
      case TryingCancel(_) =>
      case Beginning(_, _) =>
      case Finishing(_) =>
    }
  }

  lemma UndoGoesOn(s: State, grant: bool, short: CancelReason)
    requires Core(s) && (s.pc.Voiding? || s.pc.Releasing?) && EffectStep(s, grant, short).To?
    ensures Onward(s, EffectStep(s, grant, short).next) && Leaves(s, EffectStep(s, grant, short).next)
  {
    match s.pc {
      case Voiding(_) =>
      case Releasing(_) =>
    }
  }

  lemma CourierSideGoesOn(s: State, grant: bool, short: CancelReason)
    requires Core(s) && EffectStep(s, grant, short).To?
    requires s.pc.Accepting? || s.pc.FreeingDispatch? || s.pc.Capturing? || s.pc.Settling?
    ensures Onward(s, EffectStep(s, grant, short).next) && Leaves(s, EffectStep(s, grant, short).next)
  {
    match s.pc {
      case Accepting =>
      case Capturing =>
      case Settling =>
      case _ =>
    }
  }

  lemma EffectGoesOn(s: State, grant: bool, short: CancelReason)
    requires Core(s) && EffectStep(s, grant, short).To?
    ensures Onward(s, EffectStep(s, grant, short).next) && Leaves(s, EffectStep(s, grant, short).next)
  {
    match s.pc {
      case Creating | Forward(_) => ForwardGoesOn(s, grant, short);
      case TryingCancel(_) | Beginning(_, _) | Finishing(_) => CancelGoesOn(s, grant, short);
      case Voiding(_) | Releasing(_) => UndoGoesOn(s, grant, short);
      case _ => CourierSideGoesOn(s, grant, short);
    }
  }

  lemma AnswerGoesOn(s: State)
    requires Core(s) && AnswerStep(s).To?
    ensures Onward(s, AnswerStep(s).next) && Leaves(s, AnswerStep(s).next)
  {
    match s.pc {
      case Creating =>
      case Forward(_) =>
      case TryingCancel(_) =>
      case Beginning(_, _) =>
      case Voiding(_) =>
      case Releasing(_) =>
      case Finishing(_) =>
      case _ =>
    }
  }

  lemma WaitGoesOn(s: State, e: WaitEvent)
    requires Core(s) && WaitStep(s, e).To?
    ensures Onward(s, WaitStep(s, e).next) && Leaves(s, WaitStep(s, e).next)
  {
    match e {
      case Deadline =>
      case DecisionTimer =>
      case DecisionWake =>
      case ChildStarts =>
      case RaceWake =>
      case ChildEnds =>
    }
  }

  lemma ChildGoesOn(s: State, e: ChildEvent)
    requires Core(s) && ChildStep(s, e).To?
    ensures Onward(s, ChildStep(s, e).next) && Leaves(s, ChildStep(s, e).next)
  {
    if e.MarkLands? {
      MarkGoesOn(s);
    } else {
      ChildMoves(s, e);
    }
  }

  lemma MarkGoesOn(s: State)
    requires Core(s) && ChildStep(s, MarkLands).To?
    ensures Onward(s, ChildStep(s, MarkLands).next) && Leaves(s, ChildStep(s, MarkLands).next)
  {
    match s.child {
      case PickingUp(_) =>
      case Delivering(_) =>
      case _ =>
    }
  }

  // an abandoned attempt keeps the invariant, whatever runs meanwhile

  /** Where the forward steps may still have an effect. */
  predicate Open(pc: Pc) { pc.Forward? || pc.Beginning? || Unwinding(pc) || pc.Raised? }

  /** What an abandoned forward step does to the world when it gets to run on. */
  function LateForward(w: World, step: ForwardStep, called: bool, grant: bool): World {
    match step
    case Reserve => if called then Move(w, Placed, Validated, NoStamp).w else ReserveCall(w, grant).w
    case Authorize => if called then Move(w, Validated, PaymentCleared, NoStamp).w else AuthorizeCall(w, grant).w
    case Confirm => if called then w else Move(w, PaymentCleared, Confirmed, NoStamp).w
  }

  lemma LateForwardIs(s: State, z: Late, grant: bool, short: CancelReason)
    requires z.pc.Forward? && LateStep(s, z, grant, short).To?
    ensures var s' := LateStep(s, z, grant, short).next;
            s' == s.(w := LateForward(s.w, z.pc.step, z.called, grant), late := s'.late)
  {
    match z.pc {
      case Forward(Reserve) =>
      case Forward(Authorize) =>
      case Forward(Confirm) =>
    }
  }

  lemma LateForwardIsInert(s: State, step: ForwardStep, called: bool, grant: bool)
    requires Core(s) && LateOk(s, Late(Forward(step), called)) && !Open(s.pc)
    ensures LateForward(s.w, step, called, grant) == s.w
  {
  }

  lemma NothingHappened(s: State, late: set<Late>)
    requires Core(s)
    ensures Core(s.(late := late))
  {
  }

  lemma LateInForward(s: State, step: ForwardStep, called: bool, grant: bool)
    requires Core(s) && LateOk(s, Late(Forward(step), called)) && s.pc.Forward?
    ensures var s' := s.(w := LateForward(s.w, step, called, grant)); Core(s') && Onward(s, s')
  {
    match step {
      case Reserve =>
      case Authorize =>
      case Confirm =>
    }
  }

  lemma LateInBeginning(s: State, step: ForwardStep, called: bool, grant: bool)
    requires Core(s) && LateOk(s, Late(Forward(step), called)) && s.pc.Beginning?
    ensures var s' := s.(w := LateForward(s.w, step, called, grant)); Core(s') && Onward(s, s')
  {
    match step {
      case Reserve =>
      case Authorize =>
      case Confirm =>
    }
  }

  /** A hold or stock taken late does not disturb an unwinding. */
  lemma UnwindingTakes(s: State, w': World)
    requires Core(s) && Unwinding(s.pc) && w' == s.w.(auth := w'.auth, reservation := w'.reservation)
    requires w'.auth == s.w.auth || (s.w.auth == NoAuth && (w'.auth == Held || w'.auth == Refused))
    requires w'.reservation == s.w.reservation || (s.w.reservation == NoReservation && w'.reservation == Active)
    ensures Core(s.(w := w')) && Onward(s, s.(w := w'))
  {
    UnwindingIsRobust(s.w, w', s.pc, s.att, s.child, s.childCancel);
  }

  lemma LateInUnwind(s: State, step: ForwardStep, called: bool, grant: bool)
    requires Core(s) && LateOk(s, Late(Forward(step), called)) && Unwinding(s.pc)
    ensures var s' := s.(w := LateForward(s.w, step, called, grant)); Core(s') && Onward(s, s')
  {
    LateForwardWhenDying(s.w, step, called, grant);
    UnwindingTakes(s, LateForward(s.w, step, called, grant));
  }

  /** A dying row is out of reach of the forward steps; money and stock are not. */
  lemma LateForwardWhenDying(w: World, step: ForwardStep, called: bool, grant: bool)
    requires Dying(w.status)
    ensures var w' := LateForward(w, step, called, grant);
            && w' == w.(auth := w'.auth, reservation := w'.reservation)
            && (w'.auth == w.auth || (w.auth == NoAuth && (w'.auth == Held || w'.auth == Refused)))
            && (w'.reservation == w.reservation || (w.reservation == NoReservation && w'.reservation == Active))
  {
    match step {
      case Reserve =>
      case Authorize =>
      case Confirm =>
    }
  }

  /** While a cancellation unwinds, only the row and a capture matter to it. */
  lemma UnwindingIsRobust(w: World, w': World, pc: Pc, att: Attempt, child: Child, childCancel: bool)
    requires Unwinding(pc) && PcOk(w, pc, att, child, childCancel)
    requires w'.status == w.status && w'.reason == w.reason && w'.auth != Captured
    ensures PcOk(w', pc, att, child, childCancel)
  {
  }

  lemma LateAfterRaise(s: State, step: ForwardStep, called: bool, grant: bool)
    requires Core(s) && LateOk(s, Late(Forward(step), called)) && s.pc.Raised?
    ensures var s' := s.(w := LateForward(s.w, step, called, grant)); Core(s') && Onward(s, s')
  {
    match step {
      case Reserve =>
      case Authorize =>
      case Confirm =>
    }
  }

  lemma LateForwardKeeps(s: State, z: Late, grant: bool, short: CancelReason)
    requires Core(s) && LateOk(s, z) && z.pc.Forward? && LateStep(s, z, grant, short).To?
    ensures Core(LateStep(s, z, grant, short).next) && Onward(s, LateStep(s, z, grant, short).next)
  {
    LateForwardIs(s, z, grant, short);
    LateForwardWorldKeeps(s, z.pc.step, z.called, grant);
    NothingHappened(s.(w := LateForward(s.w, z.pc.step, z.called, grant)), LateStep(s, z, grant, short).next.late);
  }

  lemma LateForwardWorldKeeps(s: State, step: ForwardStep, called: bool, grant: bool)
    requires Core(s) && LateOk(s, Late(Forward(step), called))
    ensures var s' := s.(w := LateForward(s.w, step, called, grant)); Core(s') && Onward(s, s')
  {
    if s.pc.Forward? {
      LateInForward(s, step, called, grant);
    } else if s.pc.Beginning? {
      LateInBeginning(s, step, called, grant);
    } else if s.pc.Raised? {
      LateAfterRaise(s, step, called, grant);
    } else if Unwinding(s.pc) {
      LateInUnwind(s, step, called, grant);
    } else {
      LateForwardIsInert(s, step, called, grant);
    }
  }

  lemma LateCreateKeeps(s: State, z: Late, grant: bool, short: CancelReason)
    requires Core(s) && LateOk(s, z) && z.pc.Creating? && LateStep(s, z, grant, short).To?
    ensures Core(LateStep(s, z, grant, short).next) && Onward(s, LateStep(s, z, grant, short).next)
  {
    match s.pc {
      case Creating =>
      case _ =>
    }
  }

  lemma LateAcceptKeeps(s: State, z: Late, grant: bool, short: CancelReason)
    requires Core(s) && LateOk(s, z) && z.pc.Accepting? && LateStep(s, z, grant, short).To?
    ensures Core(LateStep(s, z, grant, short).next) && Onward(s, LateStep(s, z, grant, short).next)
  {
    match s.pc {
      case Accepting =>
      case _ =>
    }
  }

  lemma LateTryKeeps(s: State, z: Late, grant: bool, short: CancelReason)
    requires Core(s) && LateOk(s, z) && (z.pc.TryingCancel? || z.pc.FreeingDispatch?) && LateStep(s, z, grant, short).To?
    ensures Core(LateStep(s, z, grant, short).next) && Onward(s, LateStep(s, z, grant, short).next)
  {
    match s.pc {
      case TryingCancel(_) =>
      case Raised =>
      case _ =>
    }
  }

  /** An abandoned cancellation step is its row move, or nothing. */
  lemma LateCancelIs(s: State, z: Late, grant: bool, short: CancelReason)
    requires (z.pc.Beginning? || z.pc.Finishing?) && LateStep(s, z, grant, short).To?
    ensures LateStep(s, z, grant, short).next ==
            if z.pc.Beginning? then s.(w := Move(s.w, z.pc.expected, Cancelling, Stamped(z.pc.undo.reason)).w)
            else s.(w := Move(s.w, Cancelling, Cancelled, Stamped(z.pc.undo.reason)).w)
  {
  }

  lemma LateBeginKeeps(s: State, z: Late, grant: bool, short: CancelReason)
    requires Core(s) && LateOk(s, z) && z.pc.Beginning? && LateStep(s, z, grant, short).To?
    ensures Core(LateStep(s, z, grant, short).next) && Onward(s, LateStep(s, z, grant, short).next)
  {
    LateCancelIs(s, z, grant, short);
    if s.w.status == z.pc.expected {
      BeginLands(s, z.pc.expected, z.pc.undo);
    }
  }

  lemma BeginLands(s: State, expected: Status, undo: Undo)
    requires Core(s) && LateOk(s, Late(Beginning(expected, undo), false)) && s.w.status == expected
    ensures var s' := s.(w := Move(s.w, expected, Cancelling, Stamped(undo.reason)).w); Core(s') && Onward(s, s')
  {
    match s.pc {
      case Beginning(_, _) =>
      case Raised =>
      case _ =>
    }
  }

  lemma LateUndoKeeps(s: State, z: Late, grant: bool, short: CancelReason)
    requires Core(s) && LateOk(s, z) && (z.pc.Voiding? || z.pc.Releasing?) && LateStep(s, z, grant, short).To?
    ensures Core(LateStep(s, z, grant, short).next) && Onward(s, LateStep(s, z, grant, short).next)
  {
    UnwindingIsRobust(s.w, LateStep(s, z, grant, short).next.w, s.pc, s.att, s.child, s.childCancel);
  }

  lemma LateFinishKeeps(s: State, z: Late, grant: bool, short: CancelReason)
    requires Core(s) && LateOk(s, z) && z.pc.Finishing? && LateStep(s, z, grant, short).To?
    ensures Core(LateStep(s, z, grant, short).next) && Onward(s, LateStep(s, z, grant, short).next)
  {
    LateCancelIs(s, z, grant, short);
    if s.w.status == Cancelling {
      FinishLands(s, z.pc.undo);
    }
  }

  lemma FinishLands(s: State, undo: Undo)
    requires Core(s) && s.pc == Finishing(undo) && s.w.status == Cancelling
    ensures var s' := s.(w := Move(s.w, Cancelling, Cancelled, Stamped(undo.reason)).w); Core(s') && Onward(s, s')
  {
  }

  lemma LateCaptureKeeps(s: State, z: Late, grant: bool, short: CancelReason)
    requires Core(s) && LateOk(s, z) && z.pc.Capturing? && LateStep(s, z, grant, short).To?
    ensures Core(LateStep(s, z, grant, short).next) && Onward(s, LateStep(s, z, grant, short).next)
  {
    match s.pc {
      case Capturing =>
      case _ =>
    }
  }

  lemma LateSettleKeeps(s: State, z: Late, grant: bool, short: CancelReason)
    requires Core(s) && LateOk(s, z) && z.pc.Settling? && LateStep(s, z, grant, short).To?
    ensures Core(LateStep(s, z, grant, short).next) && Onward(s, LateStep(s, z, grant, short).next)
  {
    match s.pc {
      case Settling =>
      case _ =>
    }
  }

  lemma LateKeeps(s: State, z: Late, grant: bool, short: CancelReason)
    requires Core(s) && LateOk(s, z) && LateStep(s, z, grant, short).To?
    ensures Core(LateStep(s, z, grant, short).next) && Onward(s, LateStep(s, z, grant, short).next)
  {
    match z.pc {
      case Creating => LateCreateKeeps(s, z, grant, short);
      case Forward(_) => LateForwardKeeps(s, z, grant, short);
      case Accepting => LateAcceptKeeps(s, z, grant, short);
      case TryingCancel(_) | FreeingDispatch => LateTryKeeps(s, z, grant, short);
      case Beginning(_, _) => LateBeginKeeps(s, z, grant, short);
      case Voiding(_) | Releasing(_) => LateUndoKeeps(s, z, grant, short);
      case Finishing(_) => LateFinishKeeps(s, z, grant, short);
      case Capturing => LateCaptureKeeps(s, z, grant, short);
      case Settling => LateSettleKeeps(s, z, grant, short);
      case _ =>
    }
  }

  /** An abandoned attempt that has made its call. */
  lemma CalledIsOk(s: State, z: Late, grant: bool, short: CancelReason)
    requires LateOk(s, z) && LateStep(s, z, grant, short).To?
    ensures var s' := LateStep(s, z, grant, short).next; s'.late == s.late || LateOk(s', Late(z.pc, true))
  {
    match z.pc {
      case Forward(Reserve) =>
      case Forward(Authorize) =>
      case Settling =>
      case _ =>
    }
  }

  // ── every step, every run ──

  lemma AttemptKeepsCore(s: State, e: Event)
    requires Inv(s) && Next(s, e).To? && (e.Effect? || e.LoseAttempt? || e.LateRuns? || e.AnswerArrives?)
    ensures Core(Next(s, e).next) && Onward(s, Next(s, e).next) && Leaves(s, Next(s, e).next)
  {
    match e {
      case Effect(grant, short) =>
        EffectKeeps(s, grant, short);
        EffectGoesOn(s, grant, short);
      case LoseAttempt => LoseKeeps(s);
      case LateRuns(z, grant, short) => LateKeeps(s, z, grant, short);
      case AnswerArrives =>
        AnswerKeeps(s);
        AnswerGoesOn(s);
    }
  }

  lemma StepKeepsCore(s: State, e: Event)
    requires Inv(s) && Next(s, e).To?
    ensures Core(Next(s, e).next) && Onward(s, Next(s, e).next) && Leaves(s, Next(s, e).next)
  {
    match e {
      case Around(world) =>
        EnvKeeps(s, world);
        EnvGoesOn(s, world);
      case Waits(wait) =>
        WaitKeeps(s, wait);
        WaitGoesOn(s, wait);
      case InChild(step) =>
        ChildKeeps(s, step);
        ChildGoesOn(s, step);
      case _ => AttemptKeepsCore(s, e);
    }
  }

  /** Only these two kinds of step add an abandoned attempt. */
  lemma NewLate(s: State, e: Event)
    requires Next(s, e).To?
    ensures var late := Next(s, e).next.late;
            || late == s.late
            || ((e.LoseAttempt? || e.Waits?) && !s.att.Done? && late == s.late + {Late(s.pc, s.att.Called?)})
            || (e.LateRuns? && e.z in s.late && late == s.late + {Late(e.z.pc, true)})
  {
    match e {
      case Around(_) =>
      case Effect(grant, short) => EffectKeepsLate(s, grant, short);
      case Waits(wait) => WaitsAbandon(s, wait);
      case InChild(_) =>
      case _ =>
    }
  }

  lemma EffectKeepsLate(s: State, grant: bool, short: CancelReason)
    requires EffectStep(s, grant, short).To?
    ensures EffectStep(s, grant, short).next.late == s.late
  {
  }

  lemma WaitsAbandon(s: State, e: WaitEvent)
    requires WaitStep(s, e).To?
    ensures WaitStep(s, e).next.late == s.late || WaitStep(s, e).next.late == s.Abandon().late
  {
  }

  lemma NextKeeps(s: State, e: Event)
    requires Inv(s) && Next(s, e).To?
    ensures Inv(Next(s, e).next)
  {
    var s' := Next(s, e).next;
    StepKeepsCore(s, e);
    NewLate(s, e);
    forall z | z in s'.late ensures LateOk(s', z) {
      if z in s.late {
        LateStaysOk(s, s', z);
      } else if e.LateRuns? {
        CalledIsOk(s, e.z, e.grant, e.short);
      } else {
        AbandonedIsOk(s);
        LateStaysOk(s, s', z);
      }
    }
  }

  /** The invariant holds in every state of every run. */
  lemma {:induction false} EveryRunKeepsInv(es: seq<Event>)
    requires After(es).To?
    ensures Inv(After(es).next)
  {
    if |es| > 0 {
      EveryRunKeepsInv(es[..|es| - 1]);
      NextKeeps(After(es[..|es| - 1]).next, es[|es| - 1]);
    }
  }
}
