/** Which runs of the saga can still return, and which can only raise. */
module OrderSagaDoom {
  import opened OrderWorld
  import opened OrderSaga
  import opened OrderSagaProofs

  /** The run can no longer return: BEGIN_CANCEL names a stage the row has left, or
      MARK_ACCEPTED must run again although the kitchen has already moved on. */
  predicate Doomed(s: State) {
    || s.pc.Raised?
    || (s.pc.Beginning? && s.w.status != s.pc.expected && !s.w.status.Cancelling?)
    || (s.pc.Accepting? && !s.att.Done? && !s.w.status.Confirmed? && !s.w.status.Accepted?)
  }

  /** A forward deadline fires after the step's own row move has landed. */
  predicate StaleDeadline(s: State, e: Event) {
    e == Waits(Deadline) && s.pc.Forward? && s.w.status == Target(s.pc.step)
  }

  /** An abandoned forward step makes its row move while BEGIN_CANCEL is on its way. */
  predicate LateMove(s: State, e: Event) {
    && e.LateRuns? && e.z in s.late && s.pc.Beginning? && s.w.status == s.pc.expected
    && e.z.pc.Forward? && e.z.called == !e.z.pc.step.Confirm? && s.w.status == Stage(e.z.pc.step)
  }

  /** A refused reserve is answered after an abandoned one has reserved and moved the
      row. */
  predicate OvertakenRefusal(s: State, e: Event) {
    e.AnswerArrives? && s.pc == Forward(Reserve) && s.att.Done? && s.att.answer.Bad? && s.w.status == Validated
  }

  /** MARK_ACCEPTED has to be repeated and the kitchen has moved on, in either order. */
  predicate StaleAccept(s: State, e: Event) {
    && s.pc.Accepting?
    && ((e.LoseAttempt? && !s.w.status.Confirmed? && !s.w.status.Accepted?)
        || (e == Around(KitchenPreparing) && !s.att.Done?))
  }

  predicate Cause(s: State, e: Event) {
    StaleDeadline(s, e) || LateMove(s, e) || OvertakenRefusal(s, e) || StaleAccept(s, e)
  }

  /** The only four ways into doom, each readable off the state before the step. */
  lemma DoomHasFourCauses(s: State, e: Event)
    requires Inv(s) && !Doomed(s) && Next(s, e).To?
    ensures Doomed(Next(s, e).next) <==> Cause(s, e)
  {
    match e {
      case Around(_) =>
      case Effect(grant, short) => EffectAvoidsDoom(s, grant, short);
      case LoseAttempt =>
      case LateRuns(z, grant, short) =>
        assert LateOk(s, z);
        LateDoom(s, z, grant, short);
      case AnswerArrives => AnswerDoom(s);
      case Waits(wait) => WaitDoom(s, wait);
      case InChild(_) => ChildAvoidsDoom(s, e.step);
    }
  }

  lemma AnswerDoom(s: State)
    requires Core(s) && !Doomed(s) && AnswerStep(s).To?
    ensures Doomed(AnswerStep(s).next) <==> OvertakenRefusal(s, AnswerArrives)
  {
    match s.pc {
      case Forward(_) =>
      case Beginning(_, _) =>
      case _ =>
    }
  }

  lemma WaitDoom(s: State, e: WaitEvent)
    requires Core(s) && !Doomed(s) && WaitStep(s, e).To?
    ensures Doomed(WaitStep(s, e).next) <==> StaleDeadline(s, Waits(e))
  {
    match s.pc {
      case Forward(_) =>
      case Deciding =>
      case _ =>
    }
  }

  lemma LateDoom(s: State, z: Late, grant: bool, short: CancelReason)
    requires Core(s) && LateOk(s, z) && !Doomed(s) && LateStep(s, z, grant, short).To?
    ensures Doomed(LateStep(s, z, grant, short).next) <==> LateMove(s, LateRuns(z, grant, short))
  {
    if z.pc.Forward? {
      LateForwardIs(s, z, grant, short);
      LateForwardDoom(s, z.pc.step, z.called, grant);
    } else {
      OtherLateAvoidsDoom(s, z, grant, short);
    }
  }

  lemma LateForwardDoom(s: State, step: ForwardStep, called: bool, grant: bool)
    requires Core(s) && LateOk(s, Late(Forward(step), called)) && !Doomed(s)
    ensures Doomed(s.(w := LateForward(s.w, step, called, grant)))
            <==> s.pc.Beginning? && s.w.status == s.pc.expected && called == !step.Confirm? && s.w.status == Stage(step)
  {
    match s.pc {
      case Beginning(_, _) =>
      case Accepting =>
      case _ =>
    }
  }

  lemma OtherLateAvoidsDoom(s: State, z: Late, grant: bool, short: CancelReason)
    requires Core(s) && LateOk(s, z) && !z.pc.Forward? && !Doomed(s) && LateStep(s, z, grant, short).To?
    ensures !Doomed(LateStep(s, z, grant, short).next)
  {
    match s.pc {
      case Beginning(_, _) =>
      case Accepting =>
      case _ =>
    }
  }

  lemma EffectAvoidsDoom(s: State, grant: bool, short: CancelReason)
    requires Core(s) && !Doomed(s) && EffectStep(s, grant, short).To?
    ensures !Doomed(EffectStep(s, grant, short).next)
  {
    match s.pc {
      case Forward(_) =>
      case Beginning(_, _) =>
      case Accepting =>
      case Finishing(_) =>
      case Settling =>
      case _ =>
    }
  }

  lemma ChildAvoidsDoom(s: State, e: ChildEvent)
    requires Core(s) && !Doomed(s) && ChildStep(s, e).To?
    ensures !Doomed(ChildStep(s, e).next)
  {
  }

  lemma EffectKeepsDoom(s: State, grant: bool, short: CancelReason)
    requires Core(s) && Doomed(s) && EffectStep(s, grant, short).To?
    ensures Doomed(EffectStep(s, grant, short).next)
  {
    match s.pc {
      case Beginning(_, _) =>
      case Accepting =>
      case _ =>
    }
  }

  /** A doomed run waits for nothing any more. */
  lemma DoomDoesNotWait(s: State, e: WaitEvent)
    requires Doomed(s)
    ensures !WaitStep(s, e).To?
  {
  }

  lemma ChildKeepsDoom(s: State, e: ChildEvent)
    requires Core(s) && Doomed(s) && ChildStep(s, e).To?
    ensures Doomed(ChildStep(s, e).next)
  {
  }

  /** Doom is final. */
  lemma DoomIsFinal(s: State, e: Event)
    requires Inv(s) && Doomed(s) && Next(s, e).To?
    ensures Doomed(Next(s, e).next)
  {
    match e {
      case Effect(grant, short) => EffectKeepsDoom(s, grant, short);
      case LateRuns(z, grant, short) =>
        assert LateOk(s, z);
        LateKeepsDoom(s, z, grant, short);
      case InChild(step) => ChildKeepsDoom(s, step);
      case Waits(wait) => DoomDoesNotWait(s, wait);
      case Around(_) =>
      case _ =>
    }
  }

  lemma LateKeepsDoom(s: State, z: Late, grant: bool, short: CancelReason)
    requires Core(s) && LateOk(s, z) && Doomed(s) && LateStep(s, z, grant, short).To?
    ensures Doomed(LateStep(s, z, grant, short).next)
  {
    match z.pc {
      case Forward(_) => LateForwardIs(s, z, grant, short);
      case Beginning(_, _) =>
      case TryingCancel(_) =>
      case _ =>
    }
  }

  /** Some step of the run was a cause. */
  ghost predicate Caused(es: seq<Event>) {
    |es| > 0 && After(es[..|es| - 1]).To? &&
    (Caused(es[..|es| - 1]) || Cause(After(es[..|es| - 1]).next, es[|es| - 1]))
  }

  /** Over whole runs: a run is doomed iff one of the four causes has happened in it. */
  lemma {:induction false} DoomedIffCaused(es: seq<Event>)
    requires After(es).To?
    ensures Doomed(After(es).next) <==> Caused(es)
  {
    if |es| > 0 {
      var before, e := es[..|es| - 1], es[|es| - 1];
      DoomedIffCaused(before);
      EveryRunKeepsInv(before);
      if Doomed(After(before).next) {
        DoomIsFinal(After(before).next, e);
      } else {
        DoomHasFourCauses(After(before).next, e);
      }
    }
  }

  // ── every other run can still return ──

  /** A step that brings an undoomed saga nearer to its return. */
  function Helpful(s: State): Event {
    match s.pc
    case Deciding => Waits(DecisionTimer)
    case StartingChild => Waits(ChildStarts)
    case Racing =>
      if Terminal(s.child) || s.cancelRequested then Waits(RaceWake) else Around(SignalCancel)
    case Draining =>
      if Terminal(s.child) then Waits(ChildEnds)
      else InChild(if s.child.CleaningUp? then CleansUp else HearsCancel)
    case AwaitingChild =>
      (match s.child
       case PickingUp(marked) => InChild(if marked then MarkAnswered else MarkLands)
       case Riding => InChild(HearsDelivered)
       case Delivering(marked) => InChild(if marked then MarkAnswered else MarkLands)
       case _ => Waits(ChildEnds))
    case _ =>
      // a refusal that was overtaken is better asked again
      if Overtaken(s) then LoseAttempt else if s.att.Done? then AnswerArrives else Effect(true, ItemUnavailable)
  }

  predicate Overtaken(s: State) {
    s.pc.Forward? && s.att.Done? && s.att.answer.Bad? && s.w.status != Stage(s.pc.step)
  }

  function Depth(pc: Pc): nat {
    match pc
    case Creating => 17
    case Forward(Reserve) => 16
    case Forward(Authorize) => 15
    case Forward(Confirm) => 14
    case Deciding => 13
    case StartingChild => 12
    case Accepting => 11
    case Racing => 10
    case TryingCancel(why) => if why == NoRiderAvailable then 6 else 9
    case AwaitingChild => 8
    case Draining => 7
    case FreeingDispatch => 5
    case Beginning(_, _) => 5
    case Voiding(_) => 4
    case Releasing(_) => 3
    case Finishing(_) => 2
    case Capturing => 2
    case Settling => 1
    case Returned(_) => 0
    case Raised => 0
  }

  function ChildDepth(c: Child): nat {
    match c
    case PickingUp(marked) => if marked then 5 else 6
    case Riding => 4
    case Delivering(marked) => if marked then 2 else 3
    case CleaningUp => 1
    case _ => if Terminal(c) then 0 else 7
  }

  /** The distance to the return. */
  function Distance(s: State): nat {
    10 * Depth(s.pc) +
    match s.pc
    case Racing => if Terminal(s.child) || s.cancelRequested then 0 else 1
    case Draining => ChildDepth(s.child)
    case AwaitingChild => ChildDepth(s.child)
    case _ => (match s.att case Idle => 2 case Called => 1 case Done(_) => if Overtaken(s) then 3 else 0)
  }

  predicate MovesOn(s: State) {
    var step := Next(s, Helpful(s));
    step.To? && !Doomed(step.next) && Distance(step.next) < Distance(s)
  }

  lemma ForwardMovesOn(s: State)
    requires Core(s) && !Doomed(s) && (s.pc.Creating? || s.pc.Forward?)
    ensures MovesOn(s)
  {
    match s.pc {
      case Creating =>
      case Forward(Reserve) =>
      case Forward(Authorize) =>
      case Forward(Confirm) =>
    }
  }

  lemma CourierMovesOn(s: State)
    requires Core(s) && !Doomed(s) && s.pc.AwaitingChild?
    ensures MovesOn(s)
  {
  }

  lemma DrainMovesOn(s: State)
    requires Core(s) && !Doomed(s) && s.pc.Draining?
    ensures MovesOn(s)
  {
  }

  lemma RaceMovesOn(s: State)
    requires Core(s) && !Doomed(s) && s.pc.Racing?
    ensures MovesOn(s)
  {
  }

  lemma RefereeMovesOn(s: State)
    requires Core(s) && !Doomed(s) && s.pc.TryingCancel?
    ensures MovesOn(s)
  {
  }

  lemma AcceptMovesOn(s: State)
    requires Core(s) && !Doomed(s) && (s.pc.Accepting? || s.pc.FreeingDispatch?)
    ensures MovesOn(s)
  {
  }

  lemma BeginMovesOn(s: State)
    requires Core(s) && !Doomed(s) && s.pc.Beginning?
    ensures MovesOn(s)
  {
  }

  lemma VoidMovesOn(s: State)
    requires Core(s) && !Doomed(s) && s.pc.Voiding?
    ensures MovesOn(s)
  {
  }

  lemma ReleaseMovesOn(s: State)
    requires Core(s) && !Doomed(s) && s.pc.Releasing?
    ensures MovesOn(s)
  {
  }

  lemma FinishMovesOn(s: State)
    requires Core(s) && !Doomed(s) && s.pc.Finishing?
    ensures MovesOn(s)
  {
  }

  lemma SettlementMovesOn(s: State)
    requires Core(s) && !Doomed(s) && (s.pc.Capturing? || s.pc.Settling?)
    ensures MovesOn(s)
  {
  }

  lemma WaitMovesOn(s: State)
    requires Core(s) && !Doomed(s) && (s.pc.Deciding? || s.pc.StartingChild?)
    ensures MovesOn(s)
  {
  }

  lemma HelpfulMovesOn(s: State)
    requires Core(s) && !Doomed(s) && !s.pc.Returned?
    ensures MovesOn(s)
  {
    match s.pc {
      case Creating | Forward(_) => ForwardMovesOn(s);
      case AwaitingChild => CourierMovesOn(s);
      case Draining => DrainMovesOn(s);
      case Racing => RaceMovesOn(s);
      case TryingCancel(_) => RefereeMovesOn(s);
      case Accepting | FreeingDispatch => AcceptMovesOn(s);
      case Capturing | Settling => SettlementMovesOn(s);
      case Deciding | StartingChild => WaitMovesOn(s);
      case Beginning(_, _) => BeginMovesOn(s);
      case Voiding(_) => VoidMovesOn(s);
      case Releasing(_) => ReleaseMovesOn(s);
      case Finishing(_) => FinishMovesOn(s);
    }
  }

  /** From every reachable state that is not doomed, the run can still return. */
  lemma {:induction false} UndoomedRunsCanReturn(es: seq<Event>) returns (more: seq<Event>)
    requires After(es).To? && !Doomed(After(es).next)
    ensures After(es + more).To? && After(es + more).next.pc.Returned?
    decreases Distance(After(es).next)
  {
    var s := After(es).next;
    if s.pc.Returned? {
      more := [];
      assert es + more == es;
    } else {
      EveryRunKeepsInv(es);
      HelpfulMovesOn(s);
      var e := Helpful(s);
      assert (es + [e])[..|es|] == es;
      var rest := UndoomedRunsCanReturn(es + [e]);
      more := [e] + rest;
      assert es + more == es + [e] + rest;
    }
  }

  /** No continuation of a doomed run returns. */
  lemma {:induction false} DoomedRunsNeverReturn(es: seq<Event>, more: seq<Event>)
    requires After(es).To? && Doomed(After(es).next) && After(es + more).To?
    ensures Doomed(After(es + more).next)
    decreases |more|
  {
    if |more| == 0 {
      assert es + more == es;
    } else {
      var shorter := more[..|more| - 1];
      assert (es + more)[..|es + more| - 1] == es + shorter;
      DoomedRunsNeverReturn(es, shorter);
      EveryRunKeepsInv(es + shorter);
      DoomIsFinal(After(es + shorter).next, more[|more| - 1]);
    }
  }

  /** Exactly which runs can still return, and so which can only raise. */
  lemma {:induction false} ReturnableIffNotDoomed(es: seq<Event>)
    requires After(es).To?
    ensures (exists more :: After(es + more).To? && After(es + more).next.pc.Returned?) <==> !Doomed(After(es).next)
  {
    if Doomed(After(es).next) {
      forall more | After(es + more).To? ensures !After(es + more).next.pc.Returned? {
        DoomedRunsNeverReturn(es, more);
      }
    } else {
      var more := UndoomedRunsCanReturn(es);
    }
  }
}
