/** The activities of the order saga, one attempt at a time, are what its step relation
    splits into effects. */
module OrderAttempts {
  import opened OrderWorld
  import opened OrderSaga

  /** Both effects of an attempt, one after the other. */
  function TwoEffects(s: State, grant: bool, short: CancelReason): Step {
    match EffectStep(s, grant, short)
    case Blocked => Blocked
    case To(called) => EffectStep(called, grant, short)
  }

  /** `validate_and_reserve` is the effects of its program counter: a refusal is the
      first alone, anything else is both. */
  lemma ReserveIsItsEffects(s: State, grant: bool, short: CancelReason)
    requires s.pc == Forward(Reserve) && s.att == Idle && (short.ItemUnavailable? || short.AtCapacity?)
    ensures var Attempted(w, answer) := ReserveAttempt(s.w, grant, short);
            match answer
            case Short(why) => EffectStep(s, grant, short) == To(s.(w := w, att := Done(Bad(why))))
            case Reserved => TwoEffects(s, grant, short) == To(s.(w := w, att := Done(Good)))
            case ReserveIllegal => TwoEffects(s, grant, short) == To(s.(w := w).Enter(Raised))
  {
  }

  lemma AuthorizeIsItsEffects(s: State, grant: bool, short: CancelReason)
    requires s.pc == Forward(Authorize) && s.att == Idle
    ensures var Attempted(w, answer) := AuthorizeAttempt(s.w, grant);
            match answer
            case Declined => EffectStep(s, grant, short) == To(s.(w := w, att := Done(Bad(PaymentDeclined))))
            case Authorized => TwoEffects(s, grant, short) == To(s.(w := w, att := Done(Good)))
            case AuthorizeIllegal => TwoEffects(s, grant, short) == To(s.(w := w).Enter(Raised))
  {
  }

  lemma SettleIsItsEffects(s: State, grant: bool, short: CancelReason)
    requires s.pc == Settling && s.att == Idle
    ensures var MoveResult(w, moved) := SettleAttempt(s.w);
            TwoEffects(s, grant, short) == To(if moved.Illegal? then s.(w := w).Enter(Raised) else s.(w := w, att := Done(Good)))
  {
  }
}
