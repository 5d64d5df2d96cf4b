/** OrderWorkflow and its DeliveryWorkflow child as one step relation. An event
    is a step of the parent, of the child, of an activity attempt or of the
    world around them (kitchen, customer, courier, timers, reaper); a run is any
    sequence of enabled events. An attempt may be lost after any of its effects
    and is then retried from its start; a forward deadline may fire at any point
    of an attempt. An attempt that was given up before it ended is still running
    somewhere: its remaining effects may take place at any later time, or never. */
module OrderSaga {
  import opened OrderWorld

  datatype Decision = Undecided | Accept | Reject

  /** Where the activity attempt now running stands. `Called` lies between the
      external effect and the row move of a two-effect activity. */
  datatype Attempt = Idle | Called | Done(answer: Answer)

  datatype Answer = Good | Bad(why: CancelReason) | TooLate

  datatype ForwardStep = Reserve | Authorize | Confirm

  /** The compensations a cancellation owes, and the reason it stamps. */
  datatype Undo = Undo(reason: CancelReason, void: bool, release: bool)

  datatype Outcome = RunSettled | RunCancelled

  datatype Pc =
    | Creating
    | Forward(step: ForwardStep)
    | Deciding
    | StartingChild
    | Accepting
    | Racing
    | TryingCancel(why: CancelReason)
    | Draining
    | AwaitingChild
    | FreeingDispatch
    | Beginning(expected: Status, undo: Undo)
    | Voiding(undo: Undo)
    | Releasing(undo: Undo)
    | Finishing(undo: Undo)
    | Capturing
    | Settling
    | Returned(outcome: Outcome)
    | Raised

  datatype Child =
    | NotStarted
    | AwaitingFood
    | Assigning
    | PickingUp(marked: bool)
    | Riding
    | Delivering(marked: bool)
    | CleaningUp
    | ChildDelivered
    | ChildNoRider
    | ChildCancelled
    | ChildFailed

  /** An abandoned attempt of the activity at `pc`, before its first effect or
      (`called`) between its two. How many there are of a kind does not matter: an
      attempt may be lost any number of times. */
  datatype Late = Late(pc: Pc, called: bool)

  datatype State = State(
    w: World,
    pc: Pc,
    att: Attempt,
    child: Child,
    decision: Decision,
    cancelRequested: bool,
    foodReady: bool,
    childCancel: bool,
    late: set<Late>)
  {
    /** Give up the running attempt, unless it has already ended. */
    function Abandon(): State {
      if att.Done? then this else this.(late := late + {Late(pc, att.Called?)})
    }

    /** Go on to the next point of `run`, with no attempt started there. */
    function Enter(pc: Pc): State { this.(pc := pc, att := Idle) }
  }

  /** What an event leads to, if it is enabled. */
  datatype Step = Blocked | To(next: State)

  const START := State(NEW_WORLD, Creating, Idle, NotStarted, Undecided, false, false, false, {})

  /** The world around the workflows. */
  datatype WorldEvent =
    | SignalDecision(verdict: Decision) | SignalCancel
    | KitchenPreparing | KitchenReady | SignalFoodReady
    | Reap

  /** The parent's own waits and timers. */
  datatype WaitEvent = Deadline | DecisionTimer | DecisionWake | ChildStarts | RaceWake | ChildEnds

  datatype ChildEvent =
    | HearsFood | FindsRider | GivesUp | HearsDelivered
    | MarkLands | LosesMark | MarkAnswered
    | HearsCancel | CleansUp

  datatype Event =
    | Around(world: WorldEvent)
    | Effect(grant: bool, short: CancelReason)
    | LoseAttempt
    | LateRuns(z: Late, grant: bool, short: CancelReason)
    | AnswerArrives
    | Waits(wait: WaitEvent)
    | InChild(step: ChildEvent)

  predicate Terminal(c: Child) {
    c.ChildDelivered? || c.ChildNoRider? || c.ChildCancelled? || c.ChildFailed?
  }

  /** The last state the database is known to hold before a forward step, which
      the deadline unwind names as `expected`. */
  function Stage(step: ForwardStep): Status {
    match step
    case Reserve => Placed
    case Authorize => Validated
    case Confirm => PaymentCleared
  }

  function Target(step: ForwardStep): Status {
    match step
    case Reserve => Validated
    case Authorize => PaymentCleared
    case Confirm => Confirmed
  }

  // ── the world around the workflows ──

  function EnvStep(s: State, e: WorldEvent): Step {
    match e
    case SignalDecision(v) => To(if s.decision.Undecided? then s.(decision := v) else s)
    case SignalCancel => To(s.(cancelRequested := true))
    case KitchenPreparing =>
      if s.w.status == Accepted then To(s.(w := Write(s.w, Preparing))) else Blocked
    case KitchenReady =>
      if s.w.status == Preparing then To(s.(w := Write(s.w, Ready))) else Blocked
    // the kitchen signals after its READY move committed, on replays too
    case SignalFoodReady =>
      if Ready in s.w.written then To(s.(foodReady := true)) else Blocked
    case Reap => To(s.(w := FinishReservation(s.w, Expired)))
  }

  // ── the parent ──

  /** A row move that is the last effect of its attempt. */
  function Landing(s: State, moved: MoveResult): State {
    if moved.moved.Illegal? then s.Enter(Raised) else s.(w := moved.w, att := Done(Good))
  }

  /** The next effect of the attempt now running. `grant` and `short` are the
      answers the outside world may choose. */
  function EffectStep(s: State, grant: bool, short: CancelReason): Step {
    match (s.pc, s.att)
    case (Creating, Idle) =>
      To(s.(w := if s.w.status == Absent then Write(s.w, Placed) else s.w, att := Done(Good)))
    case (Forward(Reserve), Idle) =>
      var CallResult(w', ok) := ReserveCall(s.w, grant);
      if ok then To(s.(w := w', att := Called))
      else if short.ItemUnavailable? || short.AtCapacity? then To(s.(w := w', att := Done(Bad(short))))
      else Blocked
    case (Forward(Reserve), Called) => To(Landing(s, Move(s.w, Placed, Validated, NoStamp)))
    case (Forward(Authorize), Idle) =>
      var CallResult(w', ok) := AuthorizeCall(s.w, grant);
      To(s.(w := w', att := if ok then Called else Done(Bad(PaymentDeclined))))
    case (Forward(Authorize), Called) => To(Landing(s, Move(s.w, Validated, PaymentCleared, NoStamp)))
    case (Forward(Confirm), Idle) => To(Landing(s, Move(s.w, PaymentCleared, Confirmed, NoStamp)))
    case (Accepting, Idle) => To(Landing(s, Move(s.w, Confirmed, Accepted, NoStamp)))
    case (TryingCancel(why), Idle) =>
      var CallResult(w', ok) := TryBegin(s.w, why);
      To(s.(w := w', att := Done(if ok then Good else TooLate)))
    case (FreeingDispatch, Idle) => To(s.(att := Done(Good)))
    case (Beginning(expected, undo), Idle) => To(Landing(s, Move(s.w, expected, Cancelling, Stamped(undo.reason))))
    case (Voiding(_), Idle) => To(s.(w := VoidCall(s.w), att := Done(Good)))
    case (Releasing(_), Idle) => To(s.(w := FinishReservation(s.w, Released), att := Done(Good)))
    case (Finishing(undo), Idle) => To(Landing(s, Move(s.w, Cancelling, Cancelled, Stamped(undo.reason))))
    case (Capturing, Idle) =>
      var CallResult(w', taken) := CaptureCall(s.w);
      To(if taken then s.(w := w', att := Done(Good)) else s.Enter(Raised))
    case (Settling, Idle) => To(s.(w := FinishReservation(s.w, Consumed), att := Called))
    case (Settling, Called) => To(Landing(s, Move(s.w, Delivered, Settled, NoStamp)))
    case _ => Blocked
  }

  /** The next effect of an abandoned attempt. It touches the world and nothing else:
      its answer goes nowhere, and a refused row move is only an error in a log. */
  function LateStep(s: State, z: Late, grant: bool, short: CancelReason): Step {
    if z !in s.late then Blocked
    else match EffectStep(s.(pc := z.pc, att := if z.called then Called else Idle), grant, short)
         case Blocked => Blocked
         case To(n) => To(s.(w := n.w, late := if n.att.Called? then s.late + {Late(z.pc, true)} else s.late))
  }

  /** The tail every cancellation shares: void, then release, then finish. */
  function Unwind(undo: Undo): Pc {
    if undo.void then Voiding(undo) else AfterVoid(undo)
  }

  function AfterVoid(undo: Undo): Pc {
    if undo.release then Releasing(undo) else Finishing(undo)
  }

  /** The point of `run` that follows an activity with this answer; `pc` itself
      where no activity runs. */
  function AfterAnswer(pc: Pc, answer: Answer): Pc {
    match (pc, answer)
    case (Creating, _) => Forward(Reserve)
    case (Forward(Reserve), Good) => Forward(Authorize)
    case (Forward(Reserve), Bad(why)) => Beginning(Placed, Undo(why, false, false))
    case (Forward(Authorize), Good) => Forward(Confirm)
    case (Forward(Authorize), Bad(why)) => Beginning(Validated, Undo(why, false, true))
    case (Forward(Confirm), _) => Deciding
    case (Accepting, _) => Racing
    case (TryingCancel(why), Good) => if why == NoRiderAvailable then FreeingDispatch else Draining
    // a no-rider verdict that is too late falls through to capture
    case (TryingCancel(why), TooLate) => if why == NoRiderAvailable then Capturing else AwaitingChild
    case (FreeingDispatch, _) => Unwind(Undo(NoRiderAvailable, true, true))
    case (Beginning(_, undo), _) => Unwind(undo)
    case (Voiding(undo), _) => AfterVoid(undo)
    case (Releasing(undo), _) => Finishing(undo)
    case (Finishing(_), _) => Returned(RunCancelled)
    case (Capturing, _) => Settling
    case (Settling, _) => Returned(RunSettled)
    case _ => pc
  }

  function AnswerStep(s: State): Step {
    if !s.att.Done? || AfterAnswer(s.pc, s.att.answer) == s.pc then Blocked
    else
      var pc := AfterAnswer(s.pc, s.att.answer);
      // entering the drain is what sends child.cancel()
      To(s.Enter(pc).(childCancel := s.childCancel || pc.Draining?))
  }

  /** What the deadline owes: everything the timed-out step could have acquired. */
  function DeadlineUndo(step: ForwardStep): Undo {
    Undo(SystemTimeout, step != Reserve, true)
  }

  function Decide(s: State): State {
    if s.cancelRequested then s.Enter(Beginning(Confirmed, Undo(CustomerCancelled, true, true)))
    else if s.decision == Accept then s.Enter(StartingChild)
    else s.Enter(Beginning(Confirmed,
      Undo(if s.decision == Reject then RestaurantRejected else RestaurantTimeout, true, true)))
  }

  /** `outcome = await child`: a failed child raises in the parent. */
  function AwaitChild(s: State): State {
    if s.child.ChildNoRider? then s.Enter(TryingCancel(NoRiderAvailable))
    else if s.child.ChildDelivered? then s.Enter(Capturing)
    else s.Enter(Raised)
  }

  function WaitStep(s: State, e: WaitEvent): Step {
    match (s.pc, e)
    case (Forward(step), Deadline) => To(s.Abandon().Enter(Beginning(Stage(step), DeadlineUndo(step))))
    case (Deciding, DecisionTimer) => To(Decide(s.(decision := Undecided)))
    case (Deciding, DecisionWake) => if !s.decision.Undecided? || s.cancelRequested then To(Decide(s)) else Blocked
    case (StartingChild, ChildStarts) => To(s.(child := AwaitingFood).Enter(Accepting))
    case (Racing, RaceWake) =>
      if Terminal(s.child) then To(AwaitChild(s))
      else if s.cancelRequested then To(s.Enter(TryingCancel(CustomerCancelled)))
      else Blocked
    case (AwaitingChild, ChildEnds) => if Terminal(s.child) then To(AwaitChild(s)) else Blocked
    case (Draining, ChildEnds) =>
      if Terminal(s.child) then To(s.Enter(Unwind(Undo(CustomerCancelled, true, true)))) else Blocked
    case _ => Blocked
  }

  // ── the child ──

  function ChildMark(s: State, moved: MoveResult, child: Child): Step {
    if moved.moved.Illegal? then To(s.(child := ChildFailed)) else To(s.(w := moved.w, child := child))
  }

  function ChildStep(s: State, e: ChildEvent): Step {
    match (s.child, e)
    case (AwaitingFood, HearsFood) => if s.foodReady then To(s.(child := Assigning)) else Blocked
    case (Assigning, FindsRider) => To(s.(child := PickingUp(false)))
    case (Assigning, GivesUp) => To(s.(child := ChildNoRider))
    case (PickingUp(false), MarkLands) => ChildMark(s, Move(s.w, Ready, PickedUp, NoStamp), PickingUp(true))
    case (PickingUp(_), LosesMark) => To(s.(child := PickingUp(false)))
    case (PickingUp(true), MarkAnswered) => To(s.(child := Riding))
    case (Riding, HearsDelivered) => To(s.(child := Delivering(false)))
    case (Delivering(false), MarkLands) => ChildMark(s, Move(s.w, PickedUp, Delivered, NoStamp), Delivering(true))
    case (Delivering(_), LosesMark) => To(s.(child := Delivering(false)))
    case (Delivering(true), MarkAnswered) => To(s.(child := ChildDelivered))
    case (CleaningUp, CleansUp) => To(s.(child := ChildCancelled))
    // the parent's cancel, or its close policy once it has failed
    case (c, HearsCancel) =>
      if (s.childCancel || s.pc.Raised?) && !Terminal(c) && !c.NotStarted? && !c.CleaningUp?
      then To(s.(child := CleaningUp)) else Blocked
    case _ => Blocked
  }

  /** One step; Blocked when the event is not enabled. */
  function Next(s: State, e: Event): Step {
    match e
    case Around(world) => EnvStep(s, world)
    case Effect(grant, short) => EffectStep(s, grant, short)
    case LoseAttempt => To(s.Abandon().(att := Idle))
    case LateRuns(z, grant, short) => LateStep(s, z, grant, short)
    case AnswerArrives => AnswerStep(s)
    case Waits(wait) => WaitStep(s, wait)
    case InChild(step) => ChildStep(s, step)
  }

  /** The state after a run, or Blocked if some event of it was not enabled. */
  function After(es: seq<Event>): Step {
    if |es| == 0 then To(START)
    else match After(es[..|es| - 1])
         case Blocked => Blocked
         case To(s) => Next(s, es[|es| - 1])
  }
}
