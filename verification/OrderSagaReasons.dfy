/** A cancellation's reason is evidence: over every run, a reason is stamped only if
    the event it speaks of took place. */
module OrderSagaReasons {
  import opened OrderWorld
  import opened OrderSaga
  import opened OrderSagaProofs
  import opened OrderSagaTheorems

  /** The event of the run that a reason speaks of. A decline is on payment's record. */
  ghost predicate Evidence(es: seq<Event>, s: State, why: CancelReason) {
    match why
    case ItemUnavailable => Effect(false, ItemUnavailable) in es
    case AtCapacity => Effect(false, AtCapacity) in es
    case PaymentDeclined => s.w.auth == Refused
    case RestaurantRejected => Around(SignalDecision(Reject)) in es
    case RestaurantTimeout => Waits(DecisionTimer) in es
    case CustomerCancelled => Around(SignalCancel) in es
    case SystemTimeout => Waits(Deadline) in es
    case NoRiderAvailable => InChild(GivesUp) in es
  }

  /** The reason a point of the saga is about to stamp. */
  function ReasonOf(pc: Pc): Stamp {
    match pc
    case TryingCancel(why) => Stamped(why)
    case FreeingDispatch => Stamped(NoRiderAvailable)
    case Draining => Stamped(CustomerCancelled)
    case Beginning(_, undo) => Stamped(undo.reason)
    case Voiding(undo) => Stamped(undo.reason)
    case Releasing(undo) => Stamped(undo.reason)
    case Finishing(undo) => Stamped(undo.reason)
    case _ => NoStamp
  }

  ghost predicate Mentions(s: State, why: CancelReason) {
    || s.w.reason == Stamped(why)
    || ReasonOf(s.pc) == Stamped(why)
    || s.att == Done(Bad(why))
    || exists z :: z in s.late && ReasonOf(z.pc) == Stamped(why)
  }

  /** What makes a reason come up. */
  predicate Arises(s: State, e: Event, s': State, why: CancelReason) {
    match why
    case ItemUnavailable => e == Effect(false, ItemUnavailable)
    case AtCapacity => e == Effect(false, AtCapacity)
    case PaymentDeclined => s'.w.auth == Refused
    case RestaurantRejected => s.decision == Reject
    case RestaurantTimeout => e == Waits(DecisionTimer)
    case CustomerCancelled => s.cancelRequested
    case SystemTimeout => e == Waits(Deadline)
    case NoRiderAvailable => s.child.ChildNoRider?
  }

  lemma EffectStamps(s: State, grant: bool, short: CancelReason)
    requires EffectStep(s, grant, short).To?
    ensures var s' := EffectStep(s, grant, short).next; s'.w.reason == s.w.reason || s'.w.reason == ReasonOf(s.pc)
  {
    match s.pc {
      case Creating =>
      case Forward(Reserve) =>
      case Forward(Authorize) =>
      case Forward(Confirm) =>
      case Accepting =>
      case TryingCancel(_) =>
      case Beginning(_, _) =>
      case Finishing(_) =>
      case Settling =>
      case _ =>
    }
  }

  lemma EffectRefuses(s: State, grant: bool, short: CancelReason, why: CancelReason)
    requires EffectStep(s, grant, short).To? && EffectStep(s, grant, short).next.att == Done(Bad(why))
    ensures (!grant && short == why && (why.ItemUnavailable? || why.AtCapacity?))
            || (why.PaymentDeclined? && EffectStep(s, grant, short).next.w.auth == Refused)
  {
    match s.pc {
      case Creating =>
      case Forward(Reserve) =>
      case Forward(Authorize) =>
      case Forward(Confirm) =>
      case Accepting =>
      case TryingCancel(_) =>
      case Beginning(_, _) =>
      case Finishing(_) =>
      case Settling =>
      case _ =>
    }
  }

  lemma AnswerMentions(s: State, why: CancelReason)
    requires Core(s) && AnswerStep(s).To? && ReasonOf(AnswerStep(s).next.pc) == Stamped(why)
    ensures ReasonOf(s.pc) == Stamped(why) || s.att == Done(Bad(why))
  {
    match s.pc {
      case Forward(_) =>
      case TryingCancel(_) =>
      case Beginning(_, _) =>
      case Voiding(_) =>
      case Releasing(_) =>
      case _ =>
    }
  }

  lemma WaitMentions(s: State, e: WaitEvent, why: CancelReason)
    requires Core(s) && WaitStep(s, e).To? && ReasonOf(WaitStep(s, e).next.pc) == Stamped(why)
    ensures ReasonOf(s.pc) == Stamped(why) || Arises(s, Waits(e), WaitStep(s, e).next, why)
  {
    match s.pc {
      case Forward(_) =>
      case Deciding =>
      case _ =>
    }
  }

  lemma RowMentions(s: State, e: Event, why: CancelReason)
    requires Next(s, e).To? && Next(s, e).next.w.reason == Stamped(why)
    ensures Mentions(s, why)
  {
    match e {
      case Effect(grant, short) => EffectStamps(s, grant, short);
      case LateRuns(z, grant, short) => EffectStamps(s.(pc := z.pc, att := if z.called then Called else Idle), grant, short);
      case Around(world) => WorldStampsNothing(s, world);
      case InChild(step) => ChildStampsNothing(s, step);
      case Waits(_) =>
      case _ =>
    }
  }

  lemma WorldStampsNothing(s: State, e: WorldEvent)
    requires EnvStep(s, e).To?
    ensures EnvStep(s, e).next.w.reason == s.w.reason && EnvStep(s, e).next.pc == s.pc
  {
  }

  lemma ChildStampsNothing(s: State, e: ChildEvent)
    requires ChildStep(s, e).To?
    ensures ChildStep(s, e).next.w.reason == s.w.reason && ChildStep(s, e).next.pc == s.pc
  {
  }

  lemma PcMentions(s: State, e: Event, why: CancelReason)
    requires Core(s) && Next(s, e).To? && ReasonOf(Next(s, e).next.pc) == Stamped(why)
    ensures Mentions(s, why) || Arises(s, e, Next(s, e).next, why)
  {
    match e {
      case Effect(grant, short) => EffectOnPc(s, grant, short);
      case AnswerArrives => AnswerMentions(s, why);
      case Waits(wait) => WaitMentions(s, wait, why);
      case Around(world) => WorldStampsNothing(s, world);
      case InChild(step) => ChildStampsNothing(s, step);
      case _ =>
    }
  }

  lemma AnswerOnlyFromEffects(s: State, e: Event)
    requires Next(s, e).To? && !e.Effect?
    ensures Next(s, e).next.att == s.att || Next(s, e).next.att == Idle
  {
    match e {
      case Around(_) =>
      case InChild(_) =>
      case Waits(_) =>
      case _ =>
    }
  }

  /** A reason that is mentioned was mentioned before, or has just arisen. */
  lemma MentionsArise(s: State, e: Event, why: CancelReason)
    requires Inv(s) && Next(s, e).To? && Mentions(Next(s, e).next, why)
    ensures Mentions(s, why) || Arises(s, e, Next(s, e).next, why)
  {
    var s' := Next(s, e).next;
    if s'.w.reason == Stamped(why) {
      RowMentions(s, e, why);
    } else if ReasonOf(s'.pc) == Stamped(why) {
      PcMentions(s, e, why);
    } else if s'.att == Done(Bad(why)) {
      if e.Effect? {
        EffectRefuses(s, e.grant, e.short, why);
      } else {
        AnswerOnlyFromEffects(s, e);
      }
    } else {
      var z :| z in s'.late && ReasonOf(z.pc) == Stamped(why);
      NewLate(s, e);
      if e.LateRuns? && z !in s.late {
        assert ReasonOf(e.z.pc) == Stamped(why);
      }
    }
  }

  /** The flags stand for signals of the run. */
  ghost predicate Heard(es: seq<Event>, s: State) {
    && (s.decision == Reject ==> Around(SignalDecision(Reject)) in es)
    && (s.cancelRequested ==> Around(SignalCancel) in es)
    && (s.child.ChildNoRider? ==> InChild(GivesUp) in es)
  }

  lemma FlagsAreHeard(s: State, e: Event)
    requires Next(s, e).To?
    ensures var s' := Next(s, e).next;
            && (s'.decision == Reject ==> s.decision == Reject || e == Around(SignalDecision(Reject)))
            && (s'.cancelRequested ==> s.cancelRequested || e == Around(SignalCancel))
            && (s'.child.ChildNoRider? ==> s.child.ChildNoRider? || e == InChild(GivesUp))
            && (s.w.auth == Refused ==> s'.w.auth == Refused)
  {
    match e {
      case Effect(grant, short) => RefusalsStand(s, grant, short);
      case LateRuns(z, grant, short) =>
        RefusalsStand(s.(pc := z.pc, att := if z.called then Called else Idle), grant, short);
      case Around(world) =>
      case InChild(step) => ChildIsHeard(s, step);
      case Waits(wait) => WaitsAreSilent(s, wait);
      case _ =>
    }
  }

  lemma ChildIsHeard(s: State, e: ChildEvent)
    requires ChildStep(s, e).To?
    ensures var s' := ChildStep(s, e).next;
            && s'.decision == s.decision && s'.cancelRequested == s.cancelRequested && s'.w.auth == s.w.auth
            && (s'.child.ChildNoRider? ==> s.child.ChildNoRider? || e == GivesUp)
  {
  }

  lemma WaitsAreSilent(s: State, e: WaitEvent)
    requires WaitStep(s, e).To?
    ensures var s' := WaitStep(s, e).next;
            && (s'.decision == s.decision || s'.decision == Undecided) && s'.cancelRequested == s.cancelRequested
            && s'.w.auth == s.w.auth && (s'.child == s.child || s'.child.AwaitingFood?)
  {
  }

  lemma RefusalsStand(s: State, grant: bool, short: CancelReason)
    requires EffectStep(s, grant, short).To?
    ensures var s' := EffectStep(s, grant, short).next;
            && (s.w.auth == Refused ==> s'.w.auth == Refused)
            && s'.decision == s.decision && s'.cancelRequested == s.cancelRequested && s'.child == s.child
  {
    match s.pc {
      case Creating =>
      case Forward(Reserve) =>
      case Forward(Authorize) =>
      case Forward(Confirm) =>
      case Accepting =>
      case TryingCancel(_) =>
      case Beginning(_, _) =>
      case Finishing(_) =>
      case Settling =>
      case _ =>
    }
  }

  lemma {:induction false} RunsHaveEvidence(es: seq<Event>, why: CancelReason)
    requires After(es).To?
    ensures Heard(es, After(es).next)
    ensures Mentions(After(es).next, why) ==> Evidence(es, After(es).next, why)
  {
    if |es| > 0 {
      var before, e := es[..|es| - 1], es[|es| - 1];
      var s := After(before).next;
      RunsHaveEvidence(before, why);
      EveryRunKeepsInv(before);
      FlagsAreHeard(s, e);
      assert forall x :: x in before ==> x in es;
      assert e in es;
      if Mentions(After(es).next, why) {
        MentionsArise(s, e, why);
      }
    }
  }

  /** A reason on the row is never a guess, at any point of any run: it says what in
      fact happened. */
  lemma ReasonsAreTruthful(es: seq<Event>)
    requires After(es).To? && After(es).next.w.reason.Stamped?
    ensures Evidence(es, After(es).next, After(es).next.w.reason.why)
  {
    RunsHaveEvidence(es, After(es).next.w.reason.why);
  }
}
