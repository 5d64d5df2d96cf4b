/** Runs that show the exact conditions are needed: each lemma builds one run of
    the saga, event by event. */
module OrderSagaRuns {
  import opened OrderWorld
  import opened OrderSaga

  /** An answer that changes nothing in the step that ignores it. */
  const EFFECT := Effect(true, ItemUnavailable)

  lemma Go(es: seq<Event>, s: State, e: Event) returns (es': seq<Event>, s': State)
    requires After(es) == To(s) && Next(s, e).To?
    ensures s' == Next(s, e).next && After(es') == To(s')
    ensures Calm(es) && e != Waits(Deadline) && e != Around(Reap) ==> Calm(es')
  {
    es', s' := es + [e], Next(s, e).next;
    assert es'[..|es|] == es;
  }

  /** A run with no deadline and no reaper pass. */
  predicate Calm(es: seq<Event>) { Waits(Deadline) !in es && Around(Reap) !in es }

  predicate Holds(w: World, status: Status, auth: Auth) {
    w.status == status && w.auth == auth && w.reservation == Active && w.reason == NoStamp && w.captures == 0
  }

  lemma ToPlaced() returns (es: seq<Event>, s: State)
    ensures After(es) == To(s) && Calm(es) && s.w == NEW_WORLD.(status := Placed, written := s.w.written)
    ensures s == START.(w := s.w, pc := Forward(Reserve))
  {
    es, s := [], START;
    es, s := Go(es, s, EFFECT);
    es, s := Go(es, s, AnswerArrives);
  }

  lemma ToReserved() returns (es: seq<Event>, s: State)
    ensures After(es) == To(s) && Calm(es) && Holds(s.w, Validated, NoAuth)
    ensures s == START.(w := s.w, pc := Forward(Authorize))
  {
    es, s := ToPlaced();
    es, s := Go(es, s, EFFECT);
    es, s := Go(es, s, EFFECT);
    es, s := Go(es, s, AnswerArrives);
  }

  /** Authorized, with the row move landed and its answer not yet in. */
  lemma ToAuthorizeLanded() returns (es: seq<Event>, s: State)
    ensures After(es) == To(s) && Calm(es) && Holds(s.w, PaymentCleared, Held)
    ensures s == START.(w := s.w, pc := Forward(Authorize), att := Done(Good))
  {
    es, s := ToReserved();
    es, s := Go(es, s, EFFECT);
    es, s := Go(es, s, EFFECT);
  }

  lemma ToConfirmed() returns (es: seq<Event>, s: State)
    ensures After(es) == To(s) && Calm(es) && Holds(s.w, Confirmed, Held)
    ensures s == START.(w := s.w, pc := Deciding)
  {
    es, s := ToAuthorizeLanded();
    es, s := Go(es, s, AnswerArrives);
    es, s := Go(es, s, EFFECT);
    es, s := Go(es, s, AnswerArrives);
  }

  /** Accepted by the restaurant, with MARK_ACCEPTED landed. */
  lemma ToAcceptLanded() returns (es: seq<Event>, s: State)
    ensures After(es) == To(s) && Calm(es) && Holds(s.w, Accepted, Held)
    ensures s == START.(w := s.w, pc := Accepting, att := Done(Good), child := AwaitingFood, decision := Accept)
  {
    es, s := ToConfirmed();
    es, s := Go(es, s, Around(SignalDecision(Accept)));
    es, s := Go(es, s, Waits(DecisionWake));
    es, s := Go(es, s, Waits(ChildStarts));
    es, s := Go(es, s, EFFECT);
  }

  /** A deadline that fires after the step's row move landed ends in a raise that
      strands the hold and the reservation. */
  lemma StaleDeadlineRaises() returns (es: seq<Event>)
    ensures After(es).To? && After(es).next.pc.Raised?
    ensures After(es).next.w.auth == Held && After(es).next.w.reservation == Active
  {
    var s;
    es, s := ToAuthorizeLanded();
    es, s := Go(es, s, Waits(Deadline));
    es, s := Go(es, s, EFFECT);
  }

  /** No deadline is needed: MARK_ACCEPTED commits, its answer is lost, the kitchen
      starts preparing, and the retry finds an illegal transition. */
  lemma LostAcceptRaises() returns (es: seq<Event>)
    ensures After(es).To? && After(es).next.pc.Raised? && Calm(es)
    ensures After(es).next.w.auth == Held && After(es).next.w.reservation == Active
    ensures After(es).next.w.status == Preparing
  {
    var s;
    es, s := ToAcceptLanded();
    es, s := Go(es, s, LoseAttempt);
    es, s := Go(es, s, Around(KitchenPreparing));
    es, s := Go(es, s, EFFECT);
  }

  /** The food is ready, and the reservation has expired meanwhile. */
  lemma ToReadyButReaped() returns (es: seq<Event>, s: State)
    ensures After(es) == To(s) && s.w.status == Ready && s.w.auth == Held && s.w.reservation == Expired && s.w.captures == 0
    ensures s == START.(w := s.w, pc := Racing, child := AwaitingFood, decision := Accept, foodReady := true)
  {
    es, s := ToAcceptLanded();
    es, s := Go(es, s, AnswerArrives);
    es, s := Go(es, s, Around(KitchenPreparing));
    es, s := Go(es, s, Around(Reap));
    es, s := Go(es, s, Around(KitchenReady));
    es, s := Go(es, s, Around(SignalFoodReady));
  }

  /** A kitchen slower than the reservation's time to live: the order settles on a
      reservation that was expired, not consumed. */
  lemma ReaperBeatsSettlement() returns (es: seq<Event>)
    ensures After(es).To? && After(es).next.pc == Returned(RunSettled)
    ensures After(es).next.w.reservation == Expired && After(es).next.w.captures == 1
  {
    var s;
    es, s := ToReadyButReaped();
    es, s := Go(es, s, InChild(HearsFood));
    es, s := Go(es, s, InChild(FindsRider));
    es, s := Go(es, s, InChild(MarkLands));
    es, s := Go(es, s, InChild(MarkAnswered));
    es, s := Go(es, s, InChild(HearsDelivered));
    es, s := Go(es, s, InChild(MarkLands));
    es, s := Go(es, s, InChild(MarkAnswered));
    es, s := Settles(es, s);
  }

  lemma Settles(es: seq<Event>, s: State) returns (es': seq<Event>, s': State)
    requires After(es) == To(s) && s.pc.Racing? && s.child.ChildDelivered?
    requires s.w.status == Delivered && s.w.auth == Held && s.w.reservation == Expired && s.w.captures == 0
    ensures After(es') == To(s') && s'.pc == Returned(RunSettled)
    ensures s'.w.reservation == Expired && s'.w.captures == 1
  {
    es', s' := Go(es, s, Waits(RaceWake));
    es', s' := Go(es', s', EFFECT);
    es', s' := Go(es', s', AnswerArrives);
    es', s' := Go(es', s', EFFECT);
    es', s' := Go(es', s', EFFECT);
    es', s' := Go(es', s', AnswerArrives);
  }

  /** An authorize that had not taken effect is abandoned at the deadline and runs on
      after the void: the cancelled order holds money. */
  lemma LateAuthorizeStrandsHold() returns (es: seq<Event>)
    ensures After(es).To? && After(es).next.pc == Returned(RunCancelled)
    ensures After(es).next.w.auth == Held
  {
    var s;
    es, s := ToReserved();
    es, s := Go(es, s, Waits(Deadline));
    es, s := Unwinds(es, s);
    es, s := Go(es, s, LateRuns(Late(Forward(Authorize), false), true, ItemUnavailable));
  }

  /** A reserve attempt is lost before its call, and its retry is refused. */
  lemma ToRefused() returns (es: seq<Event>, s: State)
    ensures After(es) == To(s) && Calm(es) && s.w == NEW_WORLD.(status := Placed, written := s.w.written)
    ensures s == START.(w := s.w, pc := Forward(Reserve), att := Done(Bad(ItemUnavailable)), late := {Late(Forward(Reserve), false)})
  {
    es, s := ToPlaced();
    es, s := Go(es, s, LoseAttempt);
    es, s := Go(es, s, Effect(false, ItemUnavailable));
  }

  /** A reserve attempt is lost, its retry is refused, and the lost one still reserves:
      a refusal owes no release, so the cancelled order keeps the stock until the
      reaper comes. */
  lemma LateReserveStrandsStock() returns (es: seq<Event>)
    ensures After(es).To? && After(es).next.pc == Returned(RunCancelled)
    ensures After(es).next.w.reservation == Active && Calm(es)
  {
    var s;
    es, s := ToRefused();
    es, s := Go(es, s, AnswerArrives);
    es, s := Undoes(es, s);
    es, s := Undoes(es, s);
    es, s := Go(es, s, LateRuns(Late(Forward(Reserve), false), true, ItemUnavailable));
  }

  /** An authorize that has taken the money is abandoned at the deadline; its row move
      lands before BEGIN_CANCEL, which then names a stale stage. */
  lemma LateMoveRaises() returns (es: seq<Event>)
    ensures After(es).To? && After(es).next.pc.Raised?
    ensures After(es).next.w.auth == Held && After(es).next.w.reservation == Active
  {
    var s;
    es, s := ToReserved();
    es, s := Go(es, s, EFFECT);
    es, s := Go(es, s, Waits(Deadline));
    es, s := Go(es, s, LateRuns(Late(Forward(Authorize), true), true, ItemUnavailable));
    es, s := Go(es, s, EFFECT);
  }

  /** A lost reserve reserves and moves the row between its retry's refusal and the
      answer: the cancellation of the refused order raises. */
  lemma OvertakenRefusalRaises() returns (es: seq<Event>)
    ensures After(es).To? && After(es).next.pc.Raised?
    ensures After(es).next.w.reservation == Active && Calm(es)
  {
    var s;
    es, s := ToRefused();
    es, s := Go(es, s, LateRuns(Late(Forward(Reserve), false), true, ItemUnavailable));
    es, s := Go(es, s, LateRuns(Late(Forward(Reserve), true), true, ItemUnavailable));
    es, s := Go(es, s, AnswerArrives);
    es, s := Go(es, s, EFFECT);
  }

  /** One activity of the unwind, run and answered. */
  lemma Undoes(es: seq<Event>, s: State) returns (es': seq<Event>, s': State)
    requires After(es) == To(s) && s.att == Idle
    requires s.pc.Voiding? || s.pc.Releasing? || ((s.pc.Beginning? || s.pc.Finishing?) && MoveApplies(s))
    ensures After(es') == To(s') && s'.pc == AfterAnswer(s.pc, Good) && s'.att == Idle && s'.late == s.late
    ensures Calm(es) ==> Calm(es')
    ensures s'.w.auth == (if s.pc.Voiding? then VoidCall(s.w).auth else s.w.auth)
    ensures s.w.reservation == NoReservation ==> s'.w.reservation == NoReservation
    ensures s'.w.status == (if s.pc.Beginning? then Cancelling else if s.pc.Finishing? then Cancelled else s.w.status)
  {
    es', s' := Go(es, s, EFFECT);
    es', s' := Go(es', s', AnswerArrives);
  }

  predicate MoveApplies(s: State) {
    s.w.status == if s.pc.Beginning? then s.pc.expected else Cancelling
  }

  /** The deadline unwind, run to its return. */
  lemma Unwinds(es: seq<Event>, s: State) returns (es': seq<Event>, s': State)
    requires After(es) == To(s) && s.att == Idle
    requires s.pc == Beginning(s.w.status, Undo(SystemTimeout, true, true))
    ensures After(es') == To(s') && s'.pc == Returned(RunCancelled)
    ensures s'.w.auth == VoidCall(s.w).auth && s'.late == s.late
  {
    es', s' := Undoes(es, s);
    assert s'.pc.Voiding? && s'.w.status == Cancelling;
    es', s' := Undoes(es', s');
    es', s' := UnwindsFromRelease(es', s');
  }

  lemma UnwindsFromRelease(es: seq<Event>, s: State) returns (es': seq<Event>, s': State)
    requires After(es) == To(s) && s.att == Idle && s.pc.Releasing? && s.w.status == Cancelling
    ensures After(es') == To(s') && s'.pc == Returned(RunCancelled)
    ensures s'.w.auth == s.w.auth && s'.late == s.late
  {
    es', s' := Undoes(es, s);
    assert s'.pc.Finishing?;
    es', s' := Undoes(es', s');
  }
}
