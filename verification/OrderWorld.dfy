/** What the order saga's activities can touch: the order row, the payment
    authorization and the stock reservation of one order, with the guarded row
    moves and the idempotent port calls that change them. The history fields
    (`written`, `captures`, `voids`) record what was ever written. */
module OrderWorld {

  datatype Status =
    | Absent | Placed | Validated | PaymentCleared | Confirmed
    | Accepted | Preparing | Ready | PickedUp | Delivered | Settled
    | Cancelling | Cancelled

  datatype Auth = NoAuth | Refused | Held | Captured | Voided

  datatype Reservation = NoReservation | Active | Released | Consumed | Expired

  datatype CancelReason =
    | ItemUnavailable | AtCapacity | PaymentDeclined | RestaurantRejected
    | RestaurantTimeout | CustomerCancelled | SystemTimeout | NoRiderAvailable

  /** The reason on record, if a cancellation was begun. */
  datatype Stamp = NoStamp | Stamped(why: CancelReason)

  datatype World = World(
    status: Status,
    auth: Auth,
    reservation: Reservation,
    reason: Stamp,
    written: set<Status>,
    captures: nat,
    voids: nat)

  const NEW_WORLD := World(Absent, NoAuth, NoReservation, NoStamp, {}, 0, 0)

  /** The states a kitchen-window cancel may interrupt. */
  predicate InKitchen(st: Status) { st.Accepted? || st.Preparing? || st.Ready? }

  predicate WithCourier(st: Status) { st.PickedUp? || st.Delivered? || st.Settled? }

  predicate Dying(st: Status) { st.Cancelling? || st.Cancelled? }

  datatype Moved = Applied | Replayed | Illegal

  /** The world after a guarded row move, and how the move went. */
  datatype MoveResult = MoveResult(w: World, moved: Moved)

  /** The world after a call to a port, and whether it answered yes. */
  datatype CallResult = CallResult(w: World, ok: bool)

  function Write(w: World, target: Status): World {
    w.(status := target, written := w.written + {target})
  }

  /** The first cancellation reason wins; later stamps are ignored. */
  function Record(w: World, reason: Stamp): World {
    if w.reason.NoStamp? then w.(reason := reason) else w
  }

  /** The guarded status move: applied from `expected`, a replay at `target`,
      illegal anywhere else. */
  function Move(w: World, expected: Status, target: Status, reason: Stamp): MoveResult {
    if w.status == expected then MoveResult(Record(Write(w, target), reason), Applied)
    else if w.status == target then MoveResult(w, Replayed)
    else MoveResult(w, Illegal)
  }

  /** The set-guarded cancel of the kitchen window; false means too late. */
  function TryBegin(w: World, reason: CancelReason): CallResult {
    if InKitchen(w.status) then CallResult(Record(Write(w, Cancelling), Stamped(reason)), true)
    else CallResult(w, w.status == Cancelling)
  }

  /** Inventory's reserve: a primary-key hit replays the existing row. */
  function ReserveCall(w: World, grant: bool): CallResult {
    if w.reservation != NoReservation then CallResult(w, true)
    else if grant then CallResult(w.(reservation := Active), true)
    else CallResult(w, false)
  }

  /** Payment's authorize: the first answer is stored and replayed. */
  function AuthorizeCall(w: World, approve: bool): CallResult {
    if w.auth != NoAuth then CallResult(w, w.auth != Refused)
    else if approve then CallResult(w.(auth := Held), true)
    else CallResult(w.(auth := Refused), false)
  }

  function VoidCall(w: World): World {
    if w.auth == Held then w.(auth := Voided, voids := w.voids + 1) else w
  }

  /** Capture answers false when there is nothing to take. */
  function CaptureCall(w: World): CallResult {
    if w.auth == Held then CallResult(w.(auth := Captured, captures := w.captures + 1), true)
    else CallResult(w, w.auth == Captured)
  }

  /** Every end of a reservation is guarded on `active`. */
  function FinishReservation(w: World, target: Reservation): World {
    if w.reservation == Active then w.(reservation := target) else w
  }

  datatype ReserveAnswer = Reserved | Short(reason: CancelReason) | ReserveIllegal
  datatype AuthorizeAnswer = Authorized | Declined | AuthorizeIllegal

  /** The two-effect attempts, run to their end without a fault in between: the call
      to a port, then the guarded row move. */
  datatype Attempted<A> = Attempted(w: World, answer: A)

  function ReserveAttempt(w: World, grant: bool, short: CancelReason): Attempted<ReserveAnswer> {
    var CallResult(called, ok) := ReserveCall(w, grant);
    if !ok then Attempted(called, Short(short))
    else
      var MoveResult(done, moved) := Move(called, Placed, Validated, NoStamp);
      Attempted(done, if moved.Illegal? then ReserveIllegal else Reserved)
  }

  function AuthorizeAttempt(w: World, approve: bool): Attempted<AuthorizeAnswer> {
    var CallResult(called, ok) := AuthorizeCall(w, approve);
    if !ok then Attempted(called, Declined)
    else
      var MoveResult(done, moved) := Move(called, Validated, PaymentCleared, NoStamp);
      Attempted(done, if moved.Illegal? then AuthorizeIllegal else Authorized)
  }

  function SettleAttempt(w: World): MoveResult {
    Move(FinishReservation(w, Consumed), Delivered, Settled, NoStamp)
  }

  /** The activities as they run on the row, the authorization and the reservation. */
  class OrderActivities {
    var status: Status
    var auth: Auth
    var reservation: Reservation
    var reason: Stamp
    var written: set<Status>
    var captures: nat
    var voids: nat

    ghost function State(): World
      reads this
    {
      World(status, auth, reservation, reason, written, captures, voids)
    }

    constructor ()
      ensures State() == NEW_WORLD
    {
      status, auth, reservation, reason := Absent, NoAuth, NoReservation, NoStamp;
      written, captures, voids := {}, 0, 0;
    }

    method Transition(expected: Status, target: Status, why: Stamp) returns (moved: Moved)
      modifies this
      ensures MoveResult(State(), moved) == Move(old(State()), expected, target, why)
    {
      if status == expected {
        status := target;
        written := written + {target};
        if reason.NoStamp? {
          reason := why;
        }
        return Applied;
      }
      moved := if status == target then Replayed else Illegal;
    }

    method BeginCancelFrom(why: CancelReason) returns (cancelling: bool)
      modifies this
      ensures CallResult(State(), cancelling) == TryBegin(old(State()), why)
    {
      if InKitchen(status) {
        var _ := Transition(status, Cancelling, Stamped(why));
      }
      cancelling := status == Cancelling;
    }

    method ValidateAndReserve(grant: bool, short: CancelReason) returns (answer: ReserveAnswer)
      modifies this
      ensures Attempted(State(), answer) == ReserveAttempt(old(State()), grant, short)
    {
      if reservation == NoReservation {
        if !grant {
          return Short(short);
        }
        reservation := Active;
      }
      var moved := Transition(Placed, Validated, NoStamp);
      answer := if moved.Illegal? then ReserveIllegal else Reserved;
    }

    method AuthorizePayment(approve: bool) returns (answer: AuthorizeAnswer)
      modifies this
      ensures Attempted(State(), answer) == AuthorizeAttempt(old(State()), approve)
    {
      if auth == NoAuth {
        auth := if approve then Held else Refused;
      }
      if auth == Refused {
        return Declined;
      }
      var moved := Transition(Validated, PaymentCleared, NoStamp);
      answer := if moved.Illegal? then AuthorizeIllegal else Authorized;
    }

    method CapturePayment() returns (taken: bool)
      modifies this
      ensures CallResult(State(), taken) == CaptureCall(old(State()))
    {
      if auth == Held {
        auth, captures := Captured, captures + 1;
      }
      taken := auth == Captured;
    }

    method VoidAuthorization()
      modifies this
      ensures State() == VoidCall(old(State()))
    {
      if auth == Held {
        auth, voids := Voided, voids + 1;
      }
    }

    method SettleOrder() returns (moved: Moved)
      modifies this
      ensures MoveResult(State(), moved) == SettleAttempt(old(State()))
    {
      if reservation == Active {
        reservation := Consumed;
      }
      moved := Transition(Delivered, Settled, NoStamp);
    }

    method ReleaseReservation()
      modifies this
      ensures State() == FinishReservation(old(State()), Released)
    {
      if reservation == Active {
        reservation := Released;
      }
    }
  }

  /** At-least-once is survivable: repeating a row move or a call at once changes
      nothing more and gives the same answer. The one exception is a reserve that was
      refused: it left no trace, so a retry is answered as if it were the first. */
  lemma MovesReplay(w: World, expected: Status, target: Status, why: CancelReason)
    requires expected != target
    ensures var MoveResult(w', moved) := Move(w, expected, target, Stamped(why));
            Move(w', expected, target, Stamped(why)) == MoveResult(w', if moved.Applied? then Replayed else moved)
    ensures var CallResult(w', ok) := TryBegin(w, why); TryBegin(w', why) == CallResult(w', ok)
  {
  }

  lemma CallsReplay(w: World, grant: bool, again: bool)
    ensures var CallResult(w', ok) := AuthorizeCall(w, grant); AuthorizeCall(w', again) == CallResult(w', ok)
    ensures VoidCall(VoidCall(w)) == VoidCall(w)
    ensures var CallResult(w', ok) := CaptureCall(w); CaptureCall(w') == CallResult(w', ok)
    ensures FinishReservation(FinishReservation(w, Released), Released) == FinishReservation(w, Released)
    ensures var CallResult(w', ok) := ReserveCall(w, grant);
            ReserveCall(w', again) == if ok then CallResult(w', true) else ReserveCall(w, again)
  {
  }

  /** The same of the attempts with two effects. */
  lemma ReserveReplays(w: World, why: CancelReason, grant: bool, again: bool)
    ensures var Attempted(w', answer) := ReserveAttempt(w, grant, why);
            ReserveAttempt(w', again, why) == if answer.Short? then ReserveAttempt(w, again, why) else Attempted(w', answer)
  {
  }

  lemma AuthorizeReplays(w: World, grant: bool, again: bool)
    ensures var Attempted(w', answer) := AuthorizeAttempt(w, grant); AuthorizeAttempt(w', again) == Attempted(w', answer)
  {
  }

  lemma SettleReplays(w: World)
    ensures var MoveResult(w', moved) := SettleAttempt(w);
            SettleAttempt(w') == MoveResult(w', if moved.Applied? then Replayed else moved)
  {
  }
}
