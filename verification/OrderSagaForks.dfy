/** Where the saga's runs go, told by their events: who wins the fork after
    confirmation and the race with the courier, and which compensations a cancelled
    run has made. */
module OrderSagaForks {
  import opened OrderWorld
  import opened OrderSaga
  import opened OrderSagaProofs
  import opened OrderSagaTheorems

  // ── what the signals of a run say ──

  ghost predicate CancelAsked(es: seq<Event>) { Around(SignalCancel) in es }

  /** The restaurant's first verdict; later ones say nothing. */
  function Verdict(es: seq<Event>): Decision {
    if |es| == 0 then Undecided
    else if Verdict(es[..|es| - 1]) != Undecided then Verdict(es[..|es| - 1])
    else if es[|es| - 1].Around? && es[|es| - 1].world.SignalDecision? then es[|es| - 1].world.verdict
    else Undecided
  }

  predicate BeforeFork(pc: Pc) { pc.Creating? || pc.Forward? || pc.Deciding? }

  lemma SignalsAreFlags(s: State, e: Event)
    requires Next(s, e).To?
    ensures var s' := Next(s, e).next;
            && (s'.cancelRequested <==> s.cancelRequested || e == Around(SignalCancel))
            && (BeforeFork(s'.pc) ==> BeforeFork(s.pc))
            && (BeforeFork(s'.pc) ==>
                  s'.decision == if s.decision != Undecided then s.decision
                                 else if e.Around? && e.world.SignalDecision? then e.world.verdict else Undecided)
  {
    match e {
      case Effect(grant, short) => EffectsAreDeaf(s, grant, short);
      case Around(_) =>
      case InChild(step) => ChildrenAreDeaf(s, step);
      case Waits(wait) => WaitsAreDeaf(s, wait);
      case AnswerArrives => AnswersAreDeaf(s);
      case _ =>
    }
  }

  lemma EffectsAreDeaf(s: State, grant: bool, short: CancelReason)
    requires EffectStep(s, grant, short).To?
    ensures var s' := EffectStep(s, grant, short).next;
            && s'.cancelRequested == s.cancelRequested && s'.decision == s.decision && (s'.pc == s.pc || s'.pc.Raised?)
            && s'.child == s.child
  {
    match s.pc {
      case Forward(Reserve) =>
      case Forward(Authorize) =>
      case Forward(Confirm) =>
      case Settling =>
      case _ =>
    }
  }

  lemma ChildrenAreDeaf(s: State, e: ChildEvent)
    requires ChildStep(s, e).To?
    ensures var s' := ChildStep(s, e).next;
            s'.cancelRequested == s.cancelRequested && s'.decision == s.decision && s'.pc == s.pc && !s.child.NotStarted?
  {
  }

  lemma WaitsAreDeaf(s: State, e: WaitEvent)
    requires WaitStep(s, e).To?
    ensures var s' := WaitStep(s, e).next;
            && s'.cancelRequested == s.cancelRequested
            && (BeforeFork(s'.pc) ==> BeforeFork(s.pc) && s'.decision == s.decision)
  {
  }

  lemma AnswersAreDeaf(s: State)
    requires AnswerStep(s).To?
    ensures var s' := AnswerStep(s).next;
            && s'.cancelRequested == s.cancelRequested && s'.decision == s.decision && s'.child == s.child
            && (BeforeFork(s'.pc) ==> BeforeFork(s.pc))
  {
  }

  lemma {:induction false} FlagsAreSignals(es: seq<Event>)
    requires After(es).To?
    ensures var s := After(es).next;
            (s.cancelRequested <==> CancelAsked(es)) && (BeforeFork(s.pc) ==> s.decision == Verdict(es))
  {
    if |es| > 0 {
      var before, e := es[..|es| - 1], es[|es| - 1];
      FlagsAreSignals(before);
      SignalsAreFlags(After(before).next, e);
      assert es == before + [e];
    }
  }

  // ── the fork after confirmation ──

  /** The wait after confirmation ends with the timer, or wakes once a verdict or a
      cancel was signalled. The run goes on to the courier iff it wakes with an
      acceptance as the first verdict and no cancel; otherwise it cancels, for the
      customer before anybody else, and then for whichever of timer and rejection
      ended the wait. */
  lemma {:induction false} ForkLeads(es: seq<Event>, e: Event)
    requires After(es).To? && After(es).next.pc == Deciding
    ensures Next(After(es).next, Waits(DecisionTimer)).To?
    ensures Next(After(es).next, Waits(DecisionWake)).To? <==> Verdict(es) != Undecided || CancelAsked(es)
    ensures Next(After(es).next, e).To? ==>
              var pc' := Next(After(es).next, e).next.pc;
              && (pc' == StartingChild <==> e == Waits(DecisionWake) && Verdict(es) == Accept && !CancelAsked(es))
              && (pc' != Deciding && pc' != StartingChild ==> e == Waits(DecisionTimer) || e == Waits(DecisionWake))
              && (pc' != Deciding && pc' != StartingChild ==>
                    pc' == Beginning(Confirmed, Undo(if CancelAsked(es) then CustomerCancelled
                                                     else if e == Waits(DecisionTimer) then RestaurantTimeout
                                                     else RestaurantRejected, true, true)))
              && (e == Waits(DecisionTimer) || e == Waits(DecisionWake) ==> pc' != Deciding)
  {
    FlagsAreSignals(es);
    EveryRunKeepsInv(es);
    var s := After(es).next;
    if Next(s, e).To? {
      match e {
        case Waits(wait) =>
        case Effect(grant, short) =>
        case InChild(step) => ChildrenAreDeaf(s, step);
        case _ =>
      }
    }
  }

  /** Some wake of the run left the wait with an acceptance and no cancel. */
  ghost predicate WonByRestaurant(es: seq<Event>) {
    |es| > 0 &&
    var before := es[..|es| - 1];
    || WonByRestaurant(before)
    || (After(before).To? && After(before).next.pc == Deciding && es[|es| - 1] == Waits(DecisionWake)
        && Verdict(before) == Accept && !CancelAsked(before))
  }

  /** Points that only an accepted order reaches. */
  predicate PastAcceptance(s: State) {
    || !s.child.NotStarted? || Accepted in s.w.written
    || s.pc.StartingChild? || s.pc.Accepting? || s.pc.Racing? || s.pc.TryingCancel? || s.pc.Draining? || s.pc.AwaitingChild?
    || s.pc.FreeingDispatch? || s.pc.Capturing? || s.pc.Settling? || s.pc == Returned(RunSettled)
  }

  lemma PassingAcceptance(s: State, e: Event)
    requires Inv(s) && Next(s, e).To? && PastAcceptance(Next(s, e).next) && !PastAcceptance(s)
    ensures s.pc.Deciding? && e.Waits? && Next(s, e).next.pc.StartingChild?
  {
    match e {
      case Effect(grant, short) => EffectPasses(s, grant, short);
      case LateRuns(z, grant, short) =>
        assert LateOk(s, z);
        LatePasses(s, z, grant, short);
      case AnswerArrives => AnswerPasses(s);
      case InChild(step) => ChildrenAreDeaf(s, step);
      case Waits(wait) =>
      case Around(_) =>
      case LoseAttempt =>
    }
  }

  lemma EffectPasses(s: State, grant: bool, short: CancelReason)
    requires EffectStep(s, grant, short).To? && !PastAcceptance(s)
    ensures !PastAcceptance(EffectStep(s, grant, short).next)
  {
    match s.pc {
      case Forward(_) => ForwardPasses(s, grant, short);
      case Beginning(_, _) =>
      case Finishing(_) =>
      case _ =>
    }
  }

  lemma ForwardPasses(s: State, grant: bool, short: CancelReason)
    requires s.pc.Forward? && EffectStep(s, grant, short).To? && !PastAcceptance(s)
    ensures !PastAcceptance(EffectStep(s, grant, short).next)
  {
    match s.pc.step {
      case Reserve =>
      case Authorize =>
      case Confirm =>
    }
  }

  lemma AnswerPasses(s: State)
    requires AnswerStep(s).To? && !PastAcceptance(s)
    ensures !PastAcceptance(AnswerStep(s).next)
  {
    match s.pc {
      case Forward(_) =>
      case Beginning(_, _) =>
      case _ =>
    }
  }

  lemma LatePasses(s: State, z: Late, grant: bool, short: CancelReason)
    requires LateOk(s, z) && LateStep(s, z, grant, short).To? && !PastAcceptance(s)
    ensures !PastAcceptance(LateStep(s, z, grant, short).next)
  {
    match z.pc {
      case Forward(_) =>
      case _ =>
    }
  }

  /** A courier is started, the row accepted and the order settled only in runs whose
      fork the restaurant won. */
  lemma {:induction false} AcceptanceComesFromTheFork(es: seq<Event>)
    requires After(es).To? && PastAcceptance(After(es).next)
    ensures WonByRestaurant(es)
  {
    if |es| > 0 {
      var before, e := es[..|es| - 1], es[|es| - 1];
      EveryRunKeepsInv(before);
      if PastAcceptance(After(before).next) {
        AcceptanceComesFromTheFork(before);
      } else {
        PassingAcceptance(After(before).next, e);
        ForkLeads(before, e);
      }
    }
  }


  lemma {:induction false} NothingBeforeTheFork(es: seq<Event>)
    requires After(es).To? && BeforeFork(After(es).next.pc)
    ensures !PastAcceptance(After(es).next)
  {
    if |es| > 0 {
      var before, e := es[..|es| - 1], es[|es| - 1];
      EveryRunKeepsInv(before);
      SignalsAreFlags(After(before).next, e);
      NothingBeforeTheFork(before);
      if PastAcceptance(After(es).next) {
        PassingAcceptance(After(before).next, e);
      }
    }
  }

  /** The customer won the fork: the run can only cancel or raise, without a courier. */
  predicate CustomersWay(s: State) {
    && s.cancelRequested && s.child.NotStarted? && Accepted !in s.w.written
    && (s.pc.Deciding? || s.pc.Beginning? || Unwinding(s.pc) || s.pc.Raised?)
  }

  lemma WayStays(s: State, e: Event)
    requires Inv(s) && CustomersWay(s) && Next(s, e).To?
    ensures CustomersWay(Next(s, e).next)
  {
    match e {
      case Effect(grant, short) => EffectStays(s, grant, short);
      case LateRuns(z, grant, short) =>
        assert LateOk(s, z);
        LateStays(s, z, grant, short);
      case Around(_) =>
      case AnswerArrives => AnswerStays(s);
      case Waits(wait) =>
      case InChild(step) => ChildrenAreDeaf(s, step);
      case LoseAttempt =>
    }
  }

  lemma EffectStays(s: State, grant: bool, short: CancelReason)
    requires CustomersWay(s) && EffectStep(s, grant, short).To?
    ensures CustomersWay(EffectStep(s, grant, short).next)
  {
  }

  lemma AnswerStays(s: State)
    requires CustomersWay(s) && AnswerStep(s).To?
    ensures CustomersWay(AnswerStep(s).next)
  {
  }

  lemma LateStays(s: State, z: Late, grant: bool, short: CancelReason)
    requires LateOk(s, z) && CustomersWay(s) && LateStep(s, z, grant, short).To?
    ensures CustomersWay(LateStep(s, z, grant, short).next)
  {
    match z.pc {
      case Forward(step) =>
      case Accepting =>
      case _ =>
    }
  }

  /** Before acceptance the customer always wins: in a run that was asked to cancel while
      it waited, or before, the row is never accepted and no courier is started,
      whatever verdicts came and whenever. */
  lemma {:induction false} CancelBeatsAcceptance(es: seq<Event>, i: nat)
    requires i <= |es| && After(es).To? && After(es[..i]).To?
    requires After(es[..i]).next.pc == Deciding && CancelAsked(es[..i])
    ensures CustomersWay(After(es).next)
    ensures Accepted !in After(es).next.w.written && After(es).next.child.NotStarted?
    decreases |es|
  {
    if i == |es| {
      assert es[..i] == es;
      FlagsAreSignals(es);
      EveryRunKeepsInv(es);
      NothingBeforeTheFork(es);
    } else {
      var before := es[..|es| - 1];
      assert before[..i] == es[..i];
      CancelBeatsAcceptance(before, i);
      EveryRunKeepsInv(before);
      WayStays(After(before).next, es[|es| - 1]);
    }
  }

  // ── the race with the courier ──

  /** While the courier is out, the parent wakes once the child has ended or a cancel was
      signalled. A child that has ended decides, whatever was signalled; otherwise the
      database is asked for the customer's cancel. */
  lemma {:induction false} RaceLeads(es: seq<Event>, e: Event)
    requires After(es).To? && After(es).next.pc == Racing
    ensures var s := After(es).next;
            && (Next(s, Waits(RaceWake)).To? <==> Terminal(s.child) || CancelAsked(es))
            && (Next(s, e).To? ==>
                  var pc' := Next(s, e).next.pc;
                  && (pc' != Racing <==> e == Waits(RaceWake))
                  && (pc' == TryingCancel(CustomerCancelled) <==> e == Waits(RaceWake) && !Terminal(s.child))
                  && (pc' == TryingCancel(NoRiderAvailable) <==> e == Waits(RaceWake) && s.child.ChildNoRider?)
                  && (pc' == Capturing <==> e == Waits(RaceWake) && s.child.ChildDelivered?)
                  && (pc' == Raised <==> e == Waits(RaceWake) && (s.child.ChildCancelled? || s.child.ChildFailed?)))
  {
    FlagsAreSignals(es);
    EveryRunKeepsInv(es);
    var s := After(es).next;
    if Next(s, e).To? {
      match e {
        case InChild(step) => ChildrenAreDeaf(s, step);
        case _ =>
      }
    }
  }

  /** The referee's answer to the customer: the row is cancelling and the child is told to
      stop, or the courier has the food and the order rides on. */
  lemma {:induction false} RefereeLeads(es: seq<Event>)
    requires After(es).To? && After(es).next.pc == TryingCancel(CustomerCancelled) && After(es).next.att.Done?
    ensures var s := After(es).next;
            Next(s, AnswerArrives).To? &&
            var s' := Next(s, AnswerArrives).next;
            && (s.w.status.Cancelling? || WithCourier(s.w.status))
            && (s'.pc == Draining <==> s.w.status.Cancelling?) && (s'.pc == AwaitingChild <==> WithCourier(s.w.status))
            && (s.w.status.Cancelling? ==> s'.childCancel)
  {
    EveryRunKeepsInv(es);
  }

  /** A cancelled run leaves no courier behind: the child was never started or has ended. */
  lemma {:induction false} CancelledRunsLeaveNoCourier(es: seq<Event>)
    requires After(es).To? && After(es).next.pc == Returned(RunCancelled)
    ensures After(es).next.child.NotStarted? || Terminal(After(es).next.child)
  {
    EveryRunKeepsInv(es);
  }

  /** The parent has told the child to stop: it has been draining it. */
  ghost predicate ToldToStop(es: seq<Event>) {
    (|es| > 0 && ToldToStop(es[..|es| - 1])) || (After(es).To? && After(es).next.pc == Draining)
  }

  lemma CancelFlagStep(s: State, e: Event)
    requires Next(s, e).To? && (s.pc == Draining ==> s.childCancel)
    ensures var s' := Next(s, e).next; s'.childCancel <==> s.childCancel || s'.pc == Draining
  {
    match e {
      case Effect(grant, short) => EffectLeavesFlag(s, grant, short);
      case Waits(_) =>
      case InChild(_) =>
      case Around(_) =>
      case AnswerArrives =>
      case _ =>
    }
  }

  lemma EffectLeavesFlag(s: State, grant: bool, short: CancelReason)
    requires EffectStep(s, grant, short).To?
    ensures EffectStep(s, grant, short).next.childCancel == s.childCancel
    ensures EffectStep(s, grant, short).next.pc == s.pc || EffectStep(s, grant, short).next.pc.Raised?
  {
    match s.pc {
      case Forward(_) =>
      case Settling =>
      case _ =>
    }
  }

  lemma {:induction false} CancelFlagIsTold(es: seq<Event>)
    requires After(es).To?
    ensures After(es).next.childCancel <==> ToldToStop(es)
  {
    if |es| > 0 {
      var before, e := es[..|es| - 1], es[|es| - 1];
      CancelFlagIsTold(before);
      CancelFlagStep(After(before).next, e);
    }
  }

  /** A courier still out hears of a cancellation iff the parent has told it to stop or has
      failed, and of nothing else. */
  lemma {:induction false} ChildIsToldIff(es: seq<Event>)
    requires After(es).To?
    ensures var s := After(es).next;
            && (Next(s, InChild(HearsCancel)).To? <==>
                  (ToldToStop(es) || s.pc.Raised?) && !s.child.NotStarted? && !Terminal(s.child) && !s.child.CleaningUp?)
            && (Next(s, InChild(HearsCancel)).To? ==> Next(s, InChild(HearsCancel)).next == s.(child := CleaningUp))
  {
    CancelFlagIsTold(es);
  }

  /** What a mark does: the pickup mark moves a READY row, finds a PICKED_UP one moved, and
      fails the child on any other; the delivery mark likewise one stage on. */
  lemma {:induction false} MarkLeads(es: seq<Event>)
    requires After(es).To? && (After(es).next.child == PickingUp(false) || After(es).next.child == Delivering(false))
    ensures var s := After(es).next;
            var from, to := if s.child.PickingUp? then Ready else PickedUp, if s.child.PickingUp? then PickedUp else Delivered;
            var marked := Next(s, InChild(MarkLands));
            && marked.To? && (marked.next.child == ChildFailed <==> s.w.status != from && s.w.status != to)
            && (marked.next.child != ChildFailed ==> marked.next.w.status == to && marked.next.child.marked
                                                     && marked.next.child.PickingUp? == s.child.PickingUp?)
            && (s.w.status != from ==> marked.next.w == s.w)
  {
  }

  // ── what a cancellation owes ──

  datatype Debt = Money | Stock | Courier

  predicate Undoes(pc: Pc, d: Debt) {
    match d
    case Money => pc.Voiding?
    case Stock => pc.Releasing?
    case Courier => pc.FreeingDispatch?
  }

  /** The compensation has run to its answer. */
  ghost predicate Undone(es: seq<Event>, d: Debt) {
    |es| > 0 &&
    var before := es[..|es| - 1];
    Undone(before, d) || (es[|es| - 1] == AnswerArrives && After(before).To? && Undoes(After(before).next.pc, d))
  }

  /** The run got as far as asking for the money. */
  ghost predicate AskedForMoney(es: seq<Event>) {
    || (|es| > 0 && AskedForMoney(es[..|es| - 1]))
    || (After(es).To? && After(es).next.pc == Forward(Authorize))
  }

  /** Void what may have been authorized, release what may have been reserved, and call
      dispatch off when no rider was found. */
  ghost predicate Owes(es: seq<Event>, why: CancelReason, d: Debt) {
    match d
    case Money => AskedForMoney(es) && why != PaymentDeclined
    case Stock => why != ItemUnavailable && why != AtCapacity
    case Courier => why == NoRiderAvailable
  }

  ghost predicate Fair(es: seq<Event>, undo: Undo) {
    (undo.void <==> Owes(es, undo.reason, Money)) && (undo.release <==> Owes(es, undo.reason, Stock))
  }

  /** What has been undone so far: exactly what is due at this point. */
  ghost predicate Ledger(es: seq<Event>, s: State) {
    match s.pc
    case Creating => !AskedForMoney(es) && NothingUndone(es)
    case Forward(step) => (AskedForMoney(es) <==> step != Reserve) && NothingUndone(es)
    case Beginning(_, undo) => Fair(es, undo) && undo.reason != NoRiderAvailable && NothingUndone(es)
    case Voiding(undo) => Fair(es, undo) && undo.void && Paid(es, undo.reason, false, false)
    case Releasing(undo) => Fair(es, undo) && undo.release && Paid(es, undo.reason, true, false)
    case Finishing(undo) => Fair(es, undo) && Paid(es, undo.reason, true, true)
    case Returned(RunCancelled) => s.w.reason.Stamped? && Paid(es, s.w.reason.why, true, true)
    case Raised => true
    case _ => AskedForMoney(es) && NothingUndone(es)
  }

  ghost predicate NothingUndone(es: seq<Event>) { forall d :: !Undone(es, d) }

  /** Dispatch first, then the money, then the stock. */
  ghost predicate Paid(es: seq<Event>, why: CancelReason, money: bool, stock: bool) {
    && (Undone(es, Courier) <==> Owes(es, why, Courier))
    && (Undone(es, Money) <==> money && Owes(es, why, Money))
    && (Undone(es, Stock) <==> stock && Owes(es, why, Stock))
  }

  lemma Onwards(es: seq<Event>, e: Event)
    requires After(es).To?
    ensures After(es + [e]) == Next(After(es).next, e)
    ensures forall d :: Undone(es + [e], d) <==> Undone(es, d) || (e == AnswerArrives && Undoes(After(es).next.pc, d))
    ensures AskedForMoney(es + [e]) <==>
            AskedForMoney(es) || (Next(After(es).next, e).To? && Next(After(es).next, e).next.pc == Forward(Authorize))
  {
    assert (es + [e])[..|es|] == es;
  }

  lemma ReasonStands(s: State, e: Event)
    requires Next(s, e).To? && s.w.reason.Stamped?
    ensures Next(s, e).next.w.reason == s.w.reason
  {
    match e {
      case Effect(grant, short) => EffectStands(s, grant, short);
      case LateRuns(z, grant, short) => EffectStands(s.(pc := z.pc, att := if z.called then Called else Idle), grant, short);
      case InChild(_) =>
      case Around(_) =>
      case Waits(_) =>
      case _ =>
    }
  }

  lemma EffectStands(s: State, grant: bool, short: CancelReason)
    requires EffectStep(s, grant, short).To? && s.w.reason.Stamped?
    ensures EffectStep(s, grant, short).next.w.reason == s.w.reason
  {
    match s.pc {
      case Forward(_) =>
      case TryingCancel(_) =>
      case Beginning(_, _) =>
      case Finishing(_) =>
      case _ =>
    }
  }

  /** Which events move the parent, other than an answer. */
  lemma OnlyWaitsMove(s: State, e: Event)
    requires Next(s, e).To? && e != AnswerArrives && !e.Waits?
    ensures Next(s, e).next.pc == s.pc || Next(s, e).next.pc.Raised?
  {
    match e {
      case Effect(grant, short) => EffectsAreDeaf(s, grant, short);
      case InChild(step) => ChildrenAreDeaf(s, step);
      case _ =>
    }
  }

  lemma UnwindingBooks(es: seq<Event>)
    requires After(es).To? && Inv(After(es).next) && Ledger(es, After(es).next) && AnswerStep(After(es).next).To?
    requires var pc := After(es).next.pc; pc.Beginning? || pc.Voiding? || pc.Releasing? || pc.Finishing?
    ensures Ledger(es + [AnswerArrives], AnswerStep(After(es).next).next)
  {
    Onwards(es, AnswerArrives);
    var s := After(es).next;
    match s.pc {
      case Beginning(_, _) =>
      case Voiding(_) =>
      case Releasing(_) =>
      case Finishing(_) =>
    }
  }

  lemma ForwardBooks(es: seq<Event>)
    requires After(es).To? && Inv(After(es).next) && Ledger(es, After(es).next) && AnswerStep(After(es).next).To?
    requires After(es).next.pc.Forward?
    ensures Ledger(es + [AnswerArrives], AnswerStep(After(es).next).next)
  {
    Onwards(es, AnswerArrives);
  }

  lemma AnswerBooks(es: seq<Event>)
    requires After(es).To? && Inv(After(es).next) && Ledger(es, After(es).next) && AnswerStep(After(es).next).To?
    ensures Ledger(es + [AnswerArrives], AnswerStep(After(es).next).next)
  {
    Onwards(es, AnswerArrives);
    var s := After(es).next;
    match s.pc {
      case Forward(_) => ForwardBooks(es);
      case Beginning(_, _) => UnwindingBooks(es);
      case Voiding(_) => UnwindingBooks(es);
      case Releasing(_) => UnwindingBooks(es);
      case Finishing(_) => UnwindingBooks(es);
      case FreeingDispatch =>
      case _ =>
    }
  }

  /** The fork's wake opens the books of a cancellation, or none. */
  lemma ForkBooks(es: seq<Event>, e: WaitEvent)
    requires After(es).To? && Inv(After(es).next) && Ledger(es, After(es).next) && WaitStep(After(es).next, e).To?
    requires After(es).next.pc == Deciding
    ensures Ledger(es + [Waits(e)], WaitStep(After(es).next, e).next)
  {
    Onwards(es, Waits(e));
  }

  /** So does the pre-payment deadline. */
  lemma ClockBooks(es: seq<Event>, e: WaitEvent)
    requires After(es).To? && Inv(After(es).next) && Ledger(es, After(es).next) && WaitStep(After(es).next, e).To?
    requires After(es).next.pc.Forward?
    ensures Ledger(es + [Waits(e)], WaitStep(After(es).next, e).next)
  {
    Onwards(es, Waits(e));
  }

  lemma WaitBooks(es: seq<Event>, e: WaitEvent)
    requires After(es).To? && Inv(After(es).next) && Ledger(es, After(es).next) && WaitStep(After(es).next, e).To?
    ensures Ledger(es + [Waits(e)], WaitStep(After(es).next, e).next)
  {
    Onwards(es, Waits(e));
    var s := After(es).next;
    match s.pc {
      case Forward(_) => ClockBooks(es, e);
      case Deciding => ForkBooks(es, e);
      case Draining =>
      case _ =>
    }
  }

  lemma {:induction false} RunsKeepTheLedger(es: seq<Event>)
    requires After(es).To?
    ensures Ledger(es, After(es).next)
  {
    if |es| > 0 {
      var before, e := es[..|es| - 1], es[|es| - 1];
      var s := After(before).next;
      RunsKeepTheLedger(before);
      EveryRunKeepsInv(before);
      assert es == before + [e];
      if e == AnswerArrives {
        AnswerBooks(before);
      } else if e.Waits? {
        WaitBooks(before, e.wait);
      } else {
        Onwards(before, e);
        OnlyWaitsMove(s, e);
        if s.w.reason.Stamped? {
          ReasonStands(s, e);
        }
      }
    }
  }

  /** A cancelled run has voided iff it had asked for money and was not declined,
      released iff stock was not what it lacked, and called dispatch off iff no rider
      was found. */
  lemma {:induction false} CancelledRunsUndoWhatTheyOwe(es: seq<Event>, d: Debt)
    requires After(es).To? && After(es).next.pc == Returned(RunCancelled)
    ensures After(es).next.w.reason.Stamped?
    ensures Undone(es, d) <==> Owes(es, After(es).next.w.reason.why, d)
  {
    RunsKeepTheLedger(es);
  }

  /** In the reverse order of acquisition: nothing is released before the void that is
      owed has been answered, and nothing undone in a run that settles. */
  lemma {:induction false} VoidsComeFirst(es: seq<Event>)
    requires After(es).To? && !After(es).next.pc.Raised?
    ensures var s := After(es).next;
            && (s.pc.Releasing? ==> (Undone(es, Money) <==> Owes(es, s.pc.undo.reason, Money)))
            && (s.pc == Returned(RunSettled) ==> NothingUndone(es))
  {
    RunsKeepTheLedger(es);
  }
}
