/** The offer cascade against dispatch's own store: `_assign` and the dispatch service
    as one step relation, with the offer locks, the riders' capacity and the deliveries
    row. Dispatch writes two items, the rider's and the order's, one after the other,
    so every operation on both is two steps; between them, and between an effect and
    its answer, anything may happen. An answer arrives (`told`) or is lost and the
    activity is retried; an attempt may be given up at any point and run on at any later
    time. Time is left out: a window or a clock may close whenever what it waits for
    has not been heard. */
module OfferRace {
  import opened Options

  type Rider = string
  type OfferId = nat

  datatype Stage = Offering | Assigned | Scanned | Delivered

  /** The order's item of the deliveries table. */
  datatype Row = NoRow | Row(stage: Stage, rider: Rider, offer: OfferId)

  /** What dispatch stores about this order. `issued` and `scanned` are what ever
      happened: the candidate of each offer, and the riders who scanned the food. */
  datatype City = City(
    cap: nat,
    locks: map<Rider, OfferId>,
    carrying: set<Rider>,       // whose active deliveries hold the order
    row: Row,
    issued: seq<Rider>,
    shown: set<OfferId>,        // offers the candidate knows of
    claims: set<OfferId>,       // taken on the rider's item, not yet on the row
    taken: set<OfferId>,        // taken on both
    scanned: set<Rider>)

  /** Where `_assign` and its activity in flight stand. */
  datatype Phase =
    | Searching
    | Showing(offer: OfferId, candidate: Rider)     // locked, not yet on the row
    | Waiting(offer: OfferId, candidate: Rider)
    | Expiring(offer: OfferId, candidate: Rider)
    | Recorded(rider: Rider)
    | Unassigning(rider: Rider)
    | Freeing(rider: Rider)                         // reverted, the slot not yet freed
    | Collected(rider: Rider)
    | GaveUp

  /** The rest of an attempt that was given up, with the arguments it was called with.
      Equal attempts are not told apart, so one may stand for any number of them. */
  datatype Late =
    | LateFind(exclude: set<Rider>)
    | LateShow(offer: OfferId)
    | LateExpire(offer: OfferId, rider: Rider)
    | LateUnassign(rider: Rider)
    | LateFree(rider: Rider)

  /** History: `offered` (since the last reset, whether or not the workflow was told),
      `slipped` (candidates whose lapsed offer dispatch reported as taken by somebody
      else) and `dropped` (riders whose slot was freed late, or while the row was
      theirs). */
  datatype State = State(
    city: City,
    phase: Phase,
    exclude: set<Rider>,
    accepted: map<OfferId, Rider>,
    pickedUp: set<Rider>,
    late: set<Late>,
    offered: set<Rider>,
    slipped: set<Rider>,
    dropped: set<Rider>)

  datatype Event =
    // the writes of the three activities
    | Finds(candidate: Rider)
    | Shows(told: bool)
    | FindsNobody
    | Expires(told: bool)
    | Unassigns(told: bool)
    | Frees(told: bool)
    | GivesUp
    | LateRuns(z: Late, candidate: Rider)
    // the writes of the riders' taps
    | Takes(rider: Rider, offer: OfferId)
    | Lands(offer: OfferId)
    | Scans(rider: Rider)
    | Delivers(rider: Rider)
    | Finishes(rider: Rider)
    // their signals, any number of times
    | HearsAccept(offer: OfferId)
    | HearsPickUp(rider: Rider)
    // the workflow's own waits
    | WindowHit | WindowCloses | PickUpHeard | ClockRunsOut | DeadlinePasses

  datatype Step = Blocked | To(next: State)

  function Start(cap: nat): State {
    State(City(cap, map[], {}, NoRow, [], {}, {}, {}, {}), Searching, {}, map[], {}, {}, {}, {}, {})
  }

  // ── dispatch ──

  /** The conditional write that takes the lock: no lock, and room for one more. */
  predicate CanReserve(c: City, r: Rider) {
    c.cap > 0 && r !in c.locks && (r in c.carrying ==> c.cap > 1)
  }

  function Reserve(c: City, r: Rider): City { c.(locks := c.locks[r := |c.issued|], issued := c.issued + [r]) }

  /** Record the offer unless the row is beyond offering, and tell the candidate. */
  function Show(c: City, o: OfferId, r: Rider): City {
    c.(shown := c.shown + {o}, row := if c.row.NoRow? || c.row.stage.Offering? then Row(Offering, r, o) else c.row)
  }

  predicate Holds(c: City, r: Rider, o: OfferId) { r in c.locks && c.locks[r] == o }

  /** Accepting: the lock becomes an active delivery, then the row follows if it is
      still this offer's. */
  function Take(c: City, r: Rider, o: OfferId): City {
    c.(locks := c.locks - {r}, carrying := c.carrying + {r}, claims := c.claims + {o})
  }

  function Land(c: City, o: OfferId): City {
    c.(claims := c.claims - {o}, taken := c.taken + {o},
       row := if c.row.Row? && c.row.stage.Offering? && c.row.offer == o then c.row.(stage := Assigned) else c.row)
  }

  function Expire(c: City, r: Rider, o: OfferId): City {
    if Holds(c, r, o) then c.(locks := c.locks - {r}) else c
  }

  /** None is `revoked`; otherwise `already_assigned`, to whomever the row names. */
  function ExpireAnswer(c: City, r: Rider, o: OfferId): Option<Rider> {
    if !Holds(c, r, o) && c.row.Row? && !c.row.stage.Offering? then Some(c.row.rider) else None
  }

  predicate IsAssignedTo(c: City, r: Rider) { c.row.Row? && c.row.stage.Assigned? && c.row.rider == r }

  function Revert(c: City, r: Rider): City {
    if IsAssignedTo(c, r) then c.(row := c.row.(stage := Offering)) else c
  }

  function Free(c: City, r: Rider): City { c.(carrying := c.carrying - {r}) }

  /** The food is, or was, with this rider. */
  predicate HasPickedUp(c: City, r: Rider) {
    c.row.Row? && c.row.rider == r && (c.row.stage.Scanned? || c.row.stage.Delivered?)
  }

  predicate HasDelivered(c: City, r: Rider) { c.row.Row? && c.row.stage.Delivered? && c.row.rider == r }

  /** The row is this rider's, or is about to be. */
  predicate Owns(c: City, r: Rider) {
    c.row.Row? && c.row.rider == r && (c.row.stage.Assigned? || c.row.stage.Scanned? || (c.row.stage.Offering? && c.row.offer in c.claims))
  }

  // ── one step ──

  function Next(s: State, e: Event): Step {
    match e
    case Finds(r) =>
      if s.phase.Searching? && r !in s.exclude && CanReserve(s.city, r)
      then To(s.(city := Reserve(s.city, r), phase := Showing(|s.city.issued|, r))) else Blocked
    case Shows(told) => if s.phase.Showing? then To(ShowStep(s, s.phase.offer, s.phase.candidate, told)) else Blocked
    case FindsNobody => if s.phase.Searching? then To(s.(exclude := {}, offered := {})) else Blocked
    case Expires(told) => if s.phase.Expiring? then To(ExpireStep(s, s.phase.offer, s.phase.candidate, told)) else Blocked
    case Unassigns(told) => if s.phase.Unassigning? then To(UnassignStep(s, s.phase.rider, told)) else Blocked
    case Frees(told) => if s.phase.Freeing? then To(FreeStep(s, s.phase.rider, told)) else Blocked
    case GivesUp => GiveUpStep(s)
    case LateRuns(z, r) => if z in s.late then LateStep(s, z, r) else Blocked
    case Takes(r, o) => if Holds(s.city, r, o) && o in s.city.shown then To(s.(city := Take(s.city, r, o))) else Blocked
    case Lands(o) => if o in s.city.claims then To(s.(city := Land(s.city, o))) else Blocked
    case Scans(r) =>
      if IsAssignedTo(s.city, r)
      then To(s.(city := s.city.(row := s.city.row.(stage := Scanned), scanned := s.city.scanned + {r})))
      else Blocked
    case Delivers(r) =>
      if s.city.row.Row? && s.city.row.stage.Scanned? && s.city.row.rider == r
      then To(s.(city := s.city.(row := s.city.row.(stage := Delivered)))) else Blocked
    case Finishes(r) => if HasDelivered(s.city, r) then To(s.(city := Free(s.city, r))) else Blocked
    case HearsAccept(o) =>
      if o in s.city.taken && o < |s.city.issued| then To(s.(accepted := s.accepted[o := s.city.issued[o]])) else Blocked
    case HearsPickUp(r) => if r in s.city.scanned then To(s.(pickedUp := s.pickedUp + {r})) else Blocked
    case WindowHit =>
      if s.phase.Waiting? && s.phase.offer in s.accepted
      then To(s.(phase := Recorded(s.accepted[s.phase.offer]))) else Blocked
    case WindowCloses =>
      if s.phase.Waiting? && s.phase.offer !in s.accepted
      then To(s.(phase := Expiring(s.phase.offer, s.phase.candidate))) else Blocked
    case PickUpHeard =>
      if s.phase.Recorded? && s.phase.rider in s.pickedUp then To(s.(phase := Collected(s.phase.rider))) else Blocked
    case ClockRunsOut =>
      if s.phase.Recorded? && s.phase.rider !in s.pickedUp then To(s.(phase := Unassigning(s.phase.rider))) else Blocked
    case DeadlinePasses => if s.phase.Searching? then To(s.(phase := GaveUp)) else Blocked
  }

  function ShowStep(s: State, o: OfferId, r: Rider, told: bool): State {
    s.(city := Show(s.city, o, r), offered := s.offered + {r}, phase := if told then Waiting(o, r) else Searching)
  }

  /** EXPIRE_OFFER. Who took the offer is recorded; nobody means one more exclusion. */
  function ExpireStep(s: State, o: OfferId, r: Rider, told: bool): State {
    var s' := s.(city := Expire(s.city, r, o));
    if !told then s'
    else match ExpireAnswer(s.city, r, o)
         case None => s'.(phase := Searching, exclude := s.exclude + {r})
         case Some(taker) => s'.(phase := Recorded(taker), slipped := if taker == r then s.slipped else s.slipped + {r})
  }

  /** UNASSIGN_STALLED. A row that could not be reverted is read as a pickup. */
  function UnassignStep(s: State, r: Rider, told: bool): State {
    if IsAssignedTo(s.city, r) then s.(city := Revert(s.city, r), phase := Freeing(r))
    else if told then s.(phase := Collected(r))
    else s
  }

  function FreeStep(s: State, r: Rider, told: bool): State {
    var s' := s.(city := Free(s.city, r), dropped := if Owns(s.city, r) then s.dropped + {r} else s.dropped);
    if told then s'.(phase := Searching, exclude := s.exclude + {r}) else s'.(phase := Unassigning(r))
  }

  /** The activity's attempt in flight is given up, before its next write. */
  function GiveUpStep(s: State): Step {
    match s.phase
    case Searching => To(s.(late := s.late + {LateFind(s.exclude)}))
    case Showing(o, r) => To(s.(late := s.late + {LateShow(o)}, phase := Searching))
    case Expiring(o, r) => To(s.(late := s.late + {LateExpire(o, r)}))
    case Unassigning(r) => To(s.(late := s.late + {LateUnassign(r)}))
    case Freeing(r) => To(s.(late := s.late + {LateFree(r)}, phase := Unassigning(r)))
    case _ => Blocked
  }

  /** A late attempt touches dispatch alone; its answer goes nowhere. */
  function LateStep(s: State, z: Late, candidate: Rider): Step {
    match z
    case LateFind(exclude) =>
      if candidate !in exclude && CanReserve(s.city, candidate)
      then To(s.(city := Reserve(s.city, candidate), late := s.late + {LateShow(|s.city.issued|)})) else Blocked
    case LateShow(o) =>
      if o < |s.city.issued|
      then To(s.(city := Show(s.city, o, s.city.issued[o]), offered := s.offered + {s.city.issued[o]},
                 late := s.late - {z})) else Blocked
    case LateExpire(o, r) => To(s.(city := Expire(s.city, r, o)))
    case LateUnassign(r) =>
      To(s.(city := Revert(s.city, r), late := if IsAssignedTo(s.city, r) then s.late + {LateFree(r)} else s.late))
    case LateFree(r) => To(s.(city := Free(s.city, r), dropped := s.dropped + {r}))
  }

  /** The state after a run, or Blocked if some event of it was not enabled. */
  function After(cap: nat, es: seq<Event>): Step {
    if |es| == 0 then To(Start(cap))
    else match After(cap, es[..|es| - 1])
         case Blocked => Blocked
         case To(s) => Next(s, es[|es| - 1])
  }

  // ── what every run keeps ──

  ghost predicate CityOk(c: City) {
    && (forall r :: r in c.locks ==> c.locks[r] < |c.issued| && c.issued[c.locks[r]] == r && c.locks[r] !in c.claims && c.locks[r] !in c.taken)
    && (forall o :: o in c.shown ==> o < |c.issued|)
    && c.claims <= c.shown && c.taken <= c.shown && c.claims !! c.taken
    && (forall r :: r in c.scanned ==> HasPickedUp(c, r))
    && (c.row.Row? ==> c.row.offer in c.shown && c.issued[c.row.offer] == c.row.rider)
  }

  /** The offer is locked and its candidate has not heard of it. */
  predicate Unseen(c: City, o: OfferId) { o < |c.issued| && o !in c.shown && Holds(c, c.issued[o], o) }

  ghost predicate LateOk(s: State) {
    && (forall z :: z in s.late && z.LateShow? ==>
          Unseen(s.city, z.offer) && !(s.phase.Showing? && s.phase.offer == z.offer))
    && (forall z :: z in s.late && z.LateExpire? ==>
          z.offer < |s.city.issued| && (!Holds(s.city, z.rider, z.offer) || s.phase == Expiring(z.offer, z.rider)))
  }

  ghost predicate PhaseOk(s: State) {
    match s.phase
    case Showing(o, r) => Unseen(s.city, o) && s.city.issued[o] == r
    case Waiting(o, r) => o in s.city.shown && o < |s.city.issued| && s.city.issued[o] == r
    case Expiring(o, r) => o in s.city.shown && o < |s.city.issued| && s.city.issued[o] == r
    case _ => true
  }

  /** Where a rider who was offered the order may be. */
  predicate Spent(s: State, r: Rider) {
    || r in s.city.locks || r in s.city.carrying || r in s.exclude || r in s.slipped || r in s.dropped
    || HasDelivered(s.city, r)
    || (s.phase.Expiring? && s.phase.candidate == r)
    || s.phase == Unassigning(r) || s.phase == Freeing(r) || s.phase == Collected(r)
  }

  ghost predicate Inv(s: State) {
    && CityOk(s.city) && LateOk(s) && PhaseOk(s)
    && (forall o :: o in s.accepted ==> o in s.city.taken && o < |s.city.issued| && s.accepted[o] == s.city.issued[o])
    && s.pickedUp <= s.city.scanned
    && (forall r :: Owns(s.city, r) ==> r in s.city.carrying || r in s.dropped)
    && (forall r :: r in s.offered ==> Spent(s, r))
  }

  lemma FindsKeeps(s: State, r: Rider)
    requires Inv(s) && Next(s, Finds(r)).To?
    ensures Inv(Next(s, Finds(r)).next)
  {
  }

  lemma ShowKeeps(s: State, told: bool)
    requires Inv(s) && s.phase.Showing?
    ensures Inv(ShowStep(s, s.phase.offer, s.phase.candidate, told))
  {
  }

  lemma ExpireKeeps(s: State, told: bool)
    requires Inv(s) && s.phase.Expiring?
    ensures Inv(ExpireStep(s, s.phase.offer, s.phase.candidate, told))
  {
  }

  lemma UnassignKeeps(s: State, told: bool)
    requires Inv(s) && s.phase.Unassigning?
    ensures Inv(UnassignStep(s, s.phase.rider, told))
  {
  }

  lemma FreeKeeps(s: State, told: bool)
    requires Inv(s) && s.phase.Freeing?
    ensures Inv(FreeStep(s, s.phase.rider, told))
  {
  }

  lemma GiveUpKeeps(s: State)
    requires Inv(s) && GiveUpStep(s).To?
    ensures Inv(GiveUpStep(s).next)
  {
  }

  /** A fresh offer locks its candidate and disturbs nothing else. */
  lemma ReserveKeepsCity(c: City, r: Rider)
    requires CityOk(c) && CanReserve(c, r)
    ensures CityOk(Reserve(c, r)) && Unseen(Reserve(c, r), |c.issued|)
    ensures forall o :: Unseen(c, o) ==> Unseen(Reserve(c, r), o)
  {
  }

  lemma LateFindKeeps(s: State, exclude: set<Rider>, r: Rider)
    requires Inv(s) && LateStep(s, LateFind(exclude), r).To?
    ensures Inv(LateStep(s, LateFind(exclude), r).next)
  {
    var t := LateStep(s, LateFind(exclude), r).next;
    ReserveKeepsCity(s.city, r);
    assert LateOk(t);
    assert PhaseOk(t);
    assert forall q :: q in s.offered && Spent(s, q) ==> Spent(t, q);
  }

  lemma LateShowKeeps(s: State, o: OfferId, r: Rider)
    requires Inv(s) && LateShow(o) in s.late
    ensures LateStep(s, LateShow(o), r).To? && Inv(LateStep(s, LateShow(o), r).next)
  {
  }

  lemma LateKeeps(s: State, z: Late, r: Rider)
    requires Inv(s) && z in s.late && LateStep(s, z, r).To?
    ensures Inv(LateStep(s, z, r).next)
  {
    match z {
      case LateFind(exclude) => LateFindKeeps(s, exclude, r);
      case LateShow(o) => LateShowKeeps(s, o, r);
      case LateExpire(o, rider) =>
      case LateUnassign(rider) =>
      case LateFree(rider) =>
    }
  }

  lemma TapsKeep(s: State, e: Event)
    requires Inv(s) && (e.Takes? || e.Lands?) && Next(s, e).To?
    ensures Inv(Next(s, e).next)
  {
  }

  lemma RidesKeep(s: State, e: Event)
    requires Inv(s) && (e.Scans? || e.Delivers? || e.Finishes?) && Next(s, e).To?
    ensures Inv(Next(s, e).next)
  {
  }

  lemma WaitsKeep(s: State, e: Event)
    requires Inv(s) && Next(s, e).To?
    requires e.FindsNobody? || e.HearsAccept? || e.HearsPickUp? || e.WindowHit? || e.WindowCloses?
             || e.PickUpHeard? || e.ClockRunsOut? || e.DeadlinePasses?
    ensures Inv(Next(s, e).next)
  {
  }

  lemma NextKeeps(s: State, e: Event)
    requires Inv(s) && Next(s, e).To?
    ensures Inv(Next(s, e).next)
  {
    match e {
      case Finds(r) => FindsKeeps(s, r);
      case Shows(told) => ShowKeeps(s, told);
      case Expires(told) => ExpireKeeps(s, told);
      case Unassigns(told) => UnassignKeeps(s, told);
      case Frees(told) => FreeKeeps(s, told);
      case GivesUp => GiveUpKeeps(s);
      case LateRuns(z, r) => LateKeeps(s, z, r);
      case Takes(_, _) => TapsKeep(s, e);
      case Lands(_) => TapsKeep(s, e);
      case Scans(_) => RidesKeep(s, e);
      case Delivers(_) => RidesKeep(s, e);
      case Finishes(_) => RidesKeep(s, e);
      case _ => WaitsKeep(s, e);
    }
  }

  /** A run is a shorter run and one more enabled event. */
  lemma Split(cap: nat, es: seq<Event>) returns (s: State, e: Event)
    requires |es| > 0 && After(cap, es).To?
    ensures e == es[|es| - 1] && After(cap, es[..|es| - 1]) == To(s) && After(cap, es) == Next(s, e)
  {
    s, e := After(cap, es[..|es| - 1]).next, es[|es| - 1];
  }

  lemma StepKeeps(s: State, e: Event, cap: nat)
    requires Inv(s) && s.city.cap == cap && Next(s, e).To?
    ensures Inv(Next(s, e).next) && Next(s, e).next.city.cap == cap
  {
    NextKeeps(s, e);
    CapStays(s, e);
  }

  lemma CapStays(s: State, e: Event)
    requires Next(s, e).To?
    ensures Next(s, e).next.city.cap == s.city.cap
  {
  }

  lemma {:induction false} EveryRunKeepsInv(cap: nat, es: seq<Event>)
    requires After(cap, es).To?
    ensures Inv(After(cap, es).next) && After(cap, es).next.city.cap == cap
  {
    if |es| > 0 {
      var s, e := Split(cap, es);
      EveryRunKeepsInv(cap, es[..|es| - 1]);
      StepKeeps(s, e, cap);
    }
  }

  /** Whatever is lost or overtaken, the food has one courier: nobody else scans it. */
  lemma {:induction false} OneCourier(cap: nat, es: seq<Event>, r: Rider, r': Rider)
    requires After(cap, es).To? && r in After(cap, es).next.city.scanned && r' in After(cap, es).next.city.scanned
    ensures r == r'
  {
    EveryRunKeepsInv(cap, es);
    var c := After(cap, es).next.city;
    assert HasPickedUp(c, r) && HasPickedUp(c, r');
  }

  /** The workflow's flags are the signals it was sent. */
  lemma {:induction false} FlagsAreSignals(cap: nat, es: seq<Event>)
    requires After(cap, es).To?
    ensures var s := After(cap, es).next;
            && (forall o :: o in s.accepted <==> HearsAccept(o) in es)
            && (forall r :: r in s.pickedUp <==> HearsPickUp(r) in es)
  {
    if |es| > 0 {
      var s, e := Split(cap, es);
      FlagsAreSignals(cap, es[..|es| - 1]);
      FlagsStep(s, e);
      assert es == es[..|es| - 1] + [e];
    }
  }

  lemma FlagsStep(s: State, e: Event)
    requires Next(s, e).To?
    ensures var s' := Next(s, e).next;
            && (forall o :: o in s'.accepted <==> o in s.accepted || e == HearsAccept(o))
            && (forall r :: r in s'.pickedUp <==> r in s.pickedUp || e == HearsPickUp(r))
  {
    match e {
      case LateRuns(z, _) =>
      case GivesUp =>
      case Expires(_) =>
      case _ =>
    }
  }

  /** A heard accept settles its window with the candidate, and a heard pickup the clock;
      only what was not heard expires or is revoked. */
  lemma {:induction false} HeardSignalsDecide(cap: nat, es: seq<Event>)
    requires After(cap, es).To?
    ensures var s := After(cap, es).next;
            && (s.phase.Waiting? ==>
                  && (Next(s, WindowHit).To? <==> HearsAccept(s.phase.offer) in es)
                  && (Next(s, WindowCloses).To? <==> HearsAccept(s.phase.offer) !in es)
                  && (Next(s, WindowHit).To? ==> Next(s, WindowHit).next.phase == Recorded(s.phase.candidate)))
            && (s.phase.Recorded? ==>
                  && (Next(s, PickUpHeard).To? <==> HearsPickUp(s.phase.rider) in es)
                  && (Next(s, ClockRunsOut).To? <==> HearsPickUp(s.phase.rider) !in es))
            // the deadline ends nothing but a search
            && (Next(s, DeadlinePasses).To? <==> s.phase.Searching?)
  {
    FlagsAreSignals(cap, es);
    EveryRunKeepsInv(cap, es);
  }

  // ── repeats ──

  /** Exactly when the next search can pick a rider who had the order since the last
      reset: not excluded, not locked, and either carrying it with room for more, or
      not carrying it because the rider slipped, was dropped, or delivered it. */
  lemma {:induction false} RepeatIff(cap: nat, es: seq<Event>, r: Rider)
    requires After(cap, es).To? && After(cap, es).next.phase.Searching? && cap > 0
    requires r in After(cap, es).next.offered
    ensures var s := After(cap, es).next;
            Next(s, Finds(r)).To? <==>
              && r !in s.exclude && r !in s.city.locks
              && ((r in s.city.carrying && cap > 1)
                  || (r !in s.city.carrying && (r in s.slipped || r in s.dropped || HasDelivered(s.city, r))))
  {
    EveryRunKeepsInv(cap, es);
  }

  // ── runs in which every answer arrives ──

  predicate Told(e: Event) {
    match e
    case Shows(told) => told
    case Expires(told) => told
    case Unassigns(told) => told
    case Frees(told) => told
    case GivesUp => false
    case _ => true
  }

  predicate AllTold(es: seq<Event>) { forall i :: 0 <= i < |es| ==> Told(es[i]) }

  /** Carries the order although the row names somebody else, so no tap and no activity
      frees the rider's slot. */
  predicate Stuck(c: City, r: Rider) { r in c.carrying && c.row.Row? && c.row.rider != r }

  ghost predicate OthersSpent(s: State, r: Rider) {
    forall p :: p in s.offered && p != r ==> p in s.exclude || Stuck(s.city, p)
  }

  /** At a capacity of one: whoever had the order is excluded, or stuck with it. */
  ghost predicate Closed(s: State) {
    && s.late == {} && s.city.cap <= 1
    && match s.phase
       case Searching => forall p :: p in s.offered ==> p in s.exclude || Stuck(s.city, p)
       case Showing(o, r) =>
         r !in s.city.carrying && forall p :: p in s.offered ==> p in s.exclude || Stuck(s.city, p)
       case Waiting(o, r) => OthersSpent(s, r) && OutOrTaken(s.city, o, r)
       case Expiring(o, r) => OthersSpent(s, r) && OutOrTaken(s.city, o, r)
       case Recorded(r) => OthersSpent(s, r)
       case Unassigning(r) => OthersSpent(s, r)
       case Freeing(r) => OthersSpent(s, r)
       case _ => true
  }

  predicate OutOrTaken(c: City, o: OfferId, r: Rider) {
    Holds(c, r, o) || ((o in c.claims || o in c.taken) && (r in c.carrying || (c.row.Row? && c.row.rider == r)))
  }

  lemma TellingKeepsClosed(s: State, e: Event)
    requires Inv(s) && Closed(s) && Told(e) && Next(s, e).To?
    ensures Closed(Next(s, e).next)
  {
    match e {
      case Finds(r) =>
      case Shows(_) =>
      case Expires(_) =>
      case Unassigns(_) =>
      case Frees(_) =>
      case Takes(_, _) =>
      case Finishes(_) =>
      case _ =>
    }
  }

  lemma {:induction false} ToldRunsStayClosed(cap: nat, es: seq<Event>)
    requires cap <= 1 && After(cap, es).To? && AllTold(es)
    ensures Closed(After(cap, es).next)
  {
    if |es| > 0 {
      var s, e := Split(cap, es);
      ToldRunsStayClosed(cap, es[..|es| - 1]);
      EveryRunKeepsInv(cap, es[..|es| - 1]);
      TellingKeepsClosed(s, e);
    }
  }

  /** At the configured capacity of one, if every answer arrives, nobody gets the order
      twice between two resets. */
  lemma {:induction false} ToldRunsNeverRepeat(cap: nat, es: seq<Event>, r: Rider)
    requires cap <= 1 && After(cap, es).To? && AllTold(es) && Next(After(cap, es).next, Finds(r)).To?
    ensures r !in After(cap, es).next.offered
  {
    ToldRunsStayClosed(cap, es);
  }

  // ── and in which no expiry overtakes a tap ──

  /** EXPIRE_OFFER runs between the two writes of the accept. */
  predicate Overtakes(s: State, e: Event) { e.Expires? && s.phase.Expiring? && s.phase.offer in s.city.claims }

  ghost predicate Orderly(cap: nat, es: seq<Event>) {
    |es| > 0 ==>
      var before, e := After(cap, es[..|es| - 1]), es[|es| - 1];
      Orderly(cap, es[..|es| - 1]) && Told(e) && (before.To? ==> !Overtakes(before.next, e))
  }

  /** The one offer the workflow knows of is the one offer there is. */
  ghost predicate InStep(s: State) {
    var c := s.city;
    && s.late == {} && s.dropped == {}
    && match s.phase
       case Searching => Idle(c) && c.locks == map[] && s.offered <= s.exclude
       case Showing(o, r) => Idle(c) && c.locks == map[r := o] && s.offered <= s.exclude
       case Waiting(o, r) => OutWith(c, o, r) && s.offered <= s.exclude + {r}
       case Expiring(o, r) => OutWith(c, o, r) && s.offered <= s.exclude + {r}
       case Recorded(r) => BelongsTo(c, r) && s.offered <= s.exclude + {r}
       case Unassigning(r) => BelongsTo(c, r) && s.offered <= s.exclude + {r}
       case Freeing(r) => c.locks == map[] && c.claims == {} && c.carrying <= {r} && IsOffering(c) && s.offered <= s.exclude + {r}
       case Collected(r) => HasPickedUp(c, r)
       case GaveUp => true
  }

  predicate IsOffering(c: City) { c.row.NoRow? || c.row.stage.Offering? }

  predicate Idle(c: City) { c.carrying == {} && c.claims == {} && IsOffering(c) }

  predicate BelongsTo(c: City, r: Rider) {
    c.locks == map[] && c.claims == {} && c.carrying <= {r} && !IsOffering(c) && c.row.rider == r
  }

  /** Locked, taken on the rider's item, or taken on both. */
  predicate OutWith(c: City, o: OfferId, r: Rider) {
    || (c.locks == map[r := o] && c.carrying == {} && c.claims == {} && c.row == Row(Offering, r, o))
    || (c.locks == map[] && c.carrying == {r} && c.claims == {o} && c.row == Row(Offering, r, o))
    || (BelongsTo(c, r) && c.row.offer == o)
  }

  lemma OrderlyActivities(s: State, e: Event)
    requires Inv(s) && InStep(s) && Told(e) && !Overtakes(s, e) && Next(s, e).To?
    requires e.Finds? || e.Shows? || e.Expires? || e.Unassigns? || e.Frees?
    ensures InStep(Next(s, e).next)
  {
    match e {
      case Expires(_) =>
      case Unassigns(_) =>
      case _ =>
    }
  }

  lemma OrderlyTaps(s: State, e: Event)
    requires Inv(s) && InStep(s) && Next(s, e).To?
    requires e.Takes? || e.Lands? || e.Scans? || e.Delivers? || e.Finishes?
    ensures InStep(Next(s, e).next)
  {
    match e {
      case Takes(_, _) =>
      case Lands(_) =>
      case _ =>
    }
  }

  lemma OrderlyHit(s: State)
    requires Inv(s) && InStep(s) && Next(s, WindowHit).To?
    ensures InStep(Next(s, WindowHit).next)
  {
    // an offer that was taken holds no lock and is no claim
    assert !Holds(s.city, s.phase.candidate, s.phase.offer) && s.phase.offer !in s.city.claims;
  }

  lemma OrderlyWaits(s: State, e: Event)
    requires Inv(s) && InStep(s) && Next(s, e).To?
    requires e.FindsNobody? || e.LateRuns? || e.HearsAccept? || e.HearsPickUp? || e.WindowCloses? || e.PickUpHeard?
             || e.ClockRunsOut? || e.DeadlinePasses?
    ensures InStep(Next(s, e).next)
  {
  }

  lemma OrderlyKeepsStep(s: State, e: Event)
    requires Inv(s) && InStep(s) && Told(e) && !Overtakes(s, e) && Next(s, e).To?
    ensures InStep(Next(s, e).next)
  {
    if e.Finds? || e.Shows? || e.Expires? || e.Unassigns? || e.Frees? {
      OrderlyActivities(s, e);
    } else if e.Takes? || e.Lands? || e.Scans? || e.Delivers? || e.Finishes? {
      OrderlyTaps(s, e);
    } else if e.WindowHit? {
      OrderlyHit(s);
    } else {
      OrderlyWaits(s, e);
    }
  }

  lemma {:induction false} OrderlyRunsStayInStep(cap: nat, es: seq<Event>)
    requires After(cap, es).To? && Orderly(cap, es)
    ensures InStep(After(cap, es).next)
  {
    if |es| > 0 {
      var s, e := Split(cap, es);
      OrderlyRunsStayInStep(cap, es[..|es| - 1]);
      EveryRunKeepsInv(cap, es[..|es| - 1]);
      OrderlyKeepsStep(s, e);
    }
  }

  /** Then nobody gets the order twice between two resets whatever the capacity. */
  lemma {:induction false} OrderlyRunsNeverRepeat(cap: nat, es: seq<Event>, r: Rider)
    requires After(cap, es).To? && Orderly(cap, es) && Next(After(cap, es).next, Finds(r)).To?
    ensures r !in After(cap, es).next.offered
  {
    OrderlyRunsStayInStep(cap, es);
  }

  /** And a cascade that ends with a rider ends with a rider who has the food. */
  lemma {:induction false} OrderlyRunsCollectForReal(cap: nat, es: seq<Event>)
    requires After(cap, es).To? && Orderly(cap, es) && After(cap, es).next.phase.Collected?
    ensures HasPickedUp(After(cap, es).next.city, After(cap, es).next.phase.rider)
  {
    OrderlyRunsStayInStep(cap, es);
  }

  // ── pickups that never were ──

  /** Whatever is lost or overtaken: a step ends the cascade with a rider who does not
      have the food iff it is UNASSIGN_STALLED's answer and the row was never, or is
      not any more, with that rider. */
  lemma {:induction false} FalsePickupIff(cap: nat, es: seq<Event>, e: Event)
    requires After(cap, es).To? && Next(After(cap, es).next, e).To? && !After(cap, es).next.phase.Collected?
    ensures var s, s' := After(cap, es).next, Next(After(cap, es).next, e).next;
            (s'.phase.Collected? && !HasPickedUp(s'.city, s'.phase.rider)) <==>
              && e == Unassigns(true) && s.phase.Unassigning?
              && (IsOffering(s.city) || s.city.row.rider != s.phase.rider)
  {
    EveryRunKeepsInv(cap, es);
  }

  // ── the runs that show it ──

  lemma Go(cap: nat, es: seq<Event>, s: State, e: Event) returns (es': seq<Event>, s': State)
    requires After(cap, es) == To(s) && Next(s, e).To?
    ensures es' == es + [e] && s' == Next(s, e).next && After(cap, es') == To(s')
    ensures AllTold(es) && Told(e) ==> AllTold(es')
  {
    es', s' := es + [e], Next(s, e).next;
    assert es'[..|es|] == es;
  }

  /** The candidate of the last offer had the order before, since the last reset. */
  ghost predicate Repeats(cap: nat, es: seq<Event>, r: Rider) {
    && After(cap, es).To? && |es| > 0 && es[|es| - 1] == Shows(true)
    && var s := After(cap, es[..|es| - 1]).next; s.phase.Showing? && s.phase.candidate == r && r in s.offered
  }

  lemma OfferAgain(cap: nat, es: seq<Event>, s: State, r: Rider) returns (es': seq<Event>)
    requires After(cap, es) == To(s) && s.phase.Searching? && r in s.offered && r !in s.exclude && CanReserve(s.city, r)
    ensures Repeats(cap, es', r) && (AllTold(es) ==> AllTold(es'))
  {
    var s', before;
    before, s' := Go(cap, es, s, Finds(r));
    es', s' := Go(cap, before, s', Shows(true));
    assert es'[..|es'| - 1] == before;
  }

  lemma Offer(cap: nat, es: seq<Event>, s: State, r: Rider, told: bool) returns (es': seq<Event>, s': State)
    requires After(cap, es) == To(s) && s.phase.Searching? && r !in s.exclude && CanReserve(s.city, r)
    ensures After(cap, es') == To(s') && (AllTold(es) && told ==> AllTold(es'))
    ensures var o := |s.city.issued|;
            s' == s.(city := Show(Reserve(s.city, r), o, r), offered := s.offered + {r},
                     phase := if told then Waiting(o, r) else Searching)
  {
    es', s' := Go(cap, es, s, Finds(r));
    es', s' := Go(cap, es', s', Shows(told));
  }

  lemma Accept(cap: nat, es: seq<Event>, s: State, r: Rider, o: OfferId) returns (es': seq<Event>, s': State)
    requires After(cap, es) == To(s) && Holds(s.city, r, o) && o in s.city.shown
    ensures After(cap, es') == To(s') && (AllTold(es) ==> AllTold(es'))
    ensures s' == s.(city := Land(Take(s.city, r, o), o))
  {
    es', s' := Go(cap, es, s, Takes(r, o));
    es', s' := Go(cap, es', s', Lands(o));
  }

  lemma Lapse(cap: nat, es: seq<Event>, s: State, o: OfferId, r: Rider) returns (es': seq<Event>, s': State)
    requires After(cap, es) == To(s) && s.phase == Waiting(o, r) && o !in s.accepted
    ensures After(cap, es') == To(s') && s' == s.(phase := Expiring(o, r)) && (AllTold(es) ==> AllTold(es'))
  {
    es', s' := Go(cap, es, s, WindowCloses);
  }

  /** The expiry finds the row with somebody who has not scanned the food, and nothing
      is heard of a pickup either. */
  lemma Misread(cap: nat, es: seq<Event>, s: State, o: OfferId, r: Rider, taker: Rider) returns (es': seq<Event>, s': State)
    requires After(cap, es) == To(s) && s.phase == Expiring(o, r) && !Holds(s.city, r, o)
    requires IsAssignedTo(s.city, taker) && taker != r && s.pickedUp == {}
    ensures After(cap, es') == To(s') && (AllTold(es) ==> AllTold(es'))
    ensures s' == s.(phase := Unassigning(taker), slipped := s.slipped + {r})
  {
    es', s' := Go(cap, es, s, Expires(true));
    es', s' := Go(cap, es', s', ClockRunsOut);
  }

  /** The rider of an offer the workflow never heard of takes it. */
  lemma ToLost(cap: nat, r: Rider) returns (es: seq<Event>, s: State)
    requires cap > 0
    ensures After(cap, es) == To(s) && s.phase.Searching? && s.exclude == {} && s.offered == {r} && s.pickedUp == {}
    ensures s.city.cap == cap && s.city.locks == map[] && s.city.carrying == {r} && |s.city.issued| == 1
    ensures s.city.row == Row(Assigned, r, 0) && s.accepted == map[]
  {
    es, s := [], Start(cap);
    es, s := Offer(cap, es, s, r, false);
    es, s := Accept(cap, es, s, r, 0);
    assert s.city.locks == map[];
  }

  /** With room for two, that rider is offered the order again at once. */
  lemma RoomForTwoRepeats(cap: nat, r: Rider) returns (es: seq<Event>)
    requires cap > 1
    ensures Repeats(cap, es, r)
  {
    var s;
    es, s := ToLost(cap, r);
    es := OfferAgain(cap, es, s, r);
  }

  /** With room for one, once that rider has delivered it while the cascade goes on. */
  lemma DeliveredAndOfferedAgain(r: Rider) returns (es: seq<Event>)
    ensures Repeats(1, es, r)
  {
    var s;
    es, s := ToLost(1, r);
    es, s := Go(1, es, s, Scans(r));
    es, s := Go(1, es, s, Delivers(r));
    es, s := Go(1, es, s, Finishes(r));
    es := OfferAgain(1, es, s, r);
  }

  /** A rider who has not scanned the food in time is taken off the order. */
  lemma Revoke(cap: nat, es: seq<Event>, s: State, r: Rider) returns (es': seq<Event>, s': State)
    requires After(cap, es) == To(s) && s.phase == Unassigning(r) && IsAssignedTo(s.city, r)
    ensures After(cap, es') == To(s') && (AllTold(es) ==> AllTold(es'))
    ensures s' == s.(city := Free(Revert(s.city, r), r), phase := Searching, exclude := s.exclude + {r}, dropped := s'.dropped)
  {
    es', s' := Go(cap, es, s, Unassigns(true));
    es', s' := Go(cap, es', s', Frees(true));
  }

  /** With room for one: while that rider has the row, a second rider's offer lapses; its
      release is not heard, and the retry reports the first rider, so the second is
      excluded nowhere. */
  lemma SlippedAndOfferedAgain(first: Rider, second: Rider) returns (es: seq<Event>)
    requires first != second
    ensures Repeats(1, es, second)
  {
    var s;
    es, s := ToUnheard(first, second);
    es, s := Misread(1, es, s, 1, second, first);
    es, s := Revoke(1, es, s, first);
    es := OfferAgain(1, es, s, second);
  }

  lemma ToUnheard(first: Rider, second: Rider) returns (es: seq<Event>, s: State)
    requires first != second
    ensures After(1, es) == To(s) && s.phase == Expiring(1, second) && s.exclude == {} && s.offered == {first, second}
    ensures s.pickedUp == {} && s.city.cap == 1 && IsAssignedTo(s.city, first)
    ensures second !in s.city.locks && second !in s.city.carrying
  {
    es, s := ToLost(1, first);
    es, s := Offer(1, es, s, second, true);
    es, s := Lapse(1, es, s, 1, second);
    es, s := Go(1, es, s, Expires(false));
  }

  /** The workflow hears of the acceptance, and of no pickup in time. */
  lemma Stall(cap: nat, es: seq<Event>, s: State, o: OfferId, r: Rider) returns (es': seq<Event>, s': State)
    requires After(cap, es) == To(s) && s.phase == Waiting(o, r) && s.pickedUp == {}
    requires o in s.city.taken && o < |s.city.issued| && s.city.issued[o] == r
    ensures After(cap, es') == To(s') && (AllTold(es) ==> AllTold(es'))
    ensures s' == s.(accepted := s.accepted[o := r], phase := Unassigning(r))
  {
    es', s' := Go(cap, es, s, HearsAccept(o));
    es', s' := Go(cap, es', s', WindowHit);
    es', s' := Go(cap, es', s', ClockRunsOut);
  }

  /** Offered, taken, told, and not collected in time. */
  lemma ToUnassigning(r: Rider) returns (es: seq<Event>, s: State)
    ensures After(1, es) == To(s) && s.phase == Unassigning(r) && s.exclude == {}
    ensures s.city.cap == 1 && s.city.locks == map[] && s.city.carrying == {r} && s.city.row == Row(Assigned, r, 0)
  {
    es, s := [], Start(1);
    es, s := Offer(1, es, s, r, true);
    es, s := Accept(1, es, s, r, 0);
    assert s.city.locks == map[];
    es, s := Stall(1, es, s, 0, r);
  }

  /** With room for one: an attempt to take the rider off the order is given up, and runs
      after a reset, when an unheard offer has given the rider the order again. */
  lemma DroppedAndOfferedAgain(r: Rider) returns (es: seq<Event>)
    ensures Repeats(1, es, r)
  {
    var s;
    es, s := ToReset(r);
    var o := |s.city.issued|;
    es, s := Offer(1, es, s, r, false);
    es, s := Accept(1, es, s, r, o);
    es, s := Go(1, es, s, LateRuns(LateUnassign(r), r));
    es, s := Go(1, es, s, LateRuns(LateFree(r), r));
    es := OfferAgain(1, es, s, r);
  }

  lemma ToReset(r: Rider) returns (es: seq<Event>, s: State)
    ensures After(1, es) == To(s) && s.phase.Searching? && s.exclude == {} && s.offered == {} && LateUnassign(r) in s.late
    ensures s.city.cap == 1 && s.city.locks == map[] && s.city.carrying == {} && IsOffering(s.city)
  {
    es, s := ToUnassigning(r);
    es, s := Go(1, es, s, GivesUp);
    es, s := Revoke(1, es, s, r);
    es, s := Go(1, es, s, FindsNobody);
  }

  /** One lost answer is enough for a pickup that never was: UNASSIGN_STALLED reverts the
      row and frees the rider, its answer is lost, and the retry finds nothing to revert. */
  lemma LostUnassignCollectsNothing(r: Rider) returns (es: seq<Event>)
    ensures After(1, es).To? && After(1, es).next.phase == Collected(r)
    ensures !HasPickedUp(After(1, es).next.city, r) && r !in After(1, es).next.city.carrying
  {
    var s;
    es, s := ToUnassigning(r);
    es, s := Go(1, es, s, Unassigns(true));
    es, s := Go(1, es, s, Frees(false));
    es, s := Go(1, es, s, Unassigns(true));
  }

  /** Every answer arrives, and the expiry of an offer runs between the two writes of the
      tap that takes it. */
  lemma ToOvertaken(cap: nat, r: Rider) returns (es: seq<Event>, s: State)
    requires cap > 0
    ensures After(cap, es) == To(s) && AllTold(es) && s.phase == Searching && s.exclude == {r} && s.offered == {r}
    ensures s.accepted == map[] && s.pickedUp == {}
    ensures s.city == City(cap, map[], {r}, Row(Assigned, r, 0), [r], {0}, {}, {0}, {})
  {
    es, s := ToClaimed(cap, r);
    es, s := Go(cap, es, s, Expires(true));
    es, s := Go(cap, es, s, Lands(0));
    assert s.city.claims == {};
  }

  lemma ToClaimed(cap: nat, r: Rider) returns (es: seq<Event>, s: State)
    requires cap > 0
    ensures After(cap, es) == To(s) && AllTold(es) && s.phase == Expiring(0, r) && s.exclude == {} && s.offered == {r}
    ensures s.accepted == map[] && s.pickedUp == {}
    ensures s.city == City(cap, map[], {r}, Row(Offering, r, 0), [r], {0}, {0}, {}, {})
  {
    es, s := [], Start(cap);
    es, s := Offer(cap, es, s, r, true);
    es, s := Lapse(cap, es, s, 0, r);
    es, s := Go(cap, es, s, Takes(r, 0));
    assert s.city.locks == map[];
  }

  /** Then a second rider is offered an order that the row says is the first one's, and
      takes it. */
  lemma ToBothTaken(cap: nat, first: Rider, second: Rider) returns (es: seq<Event>, s: State)
    requires cap > 0 && first != second
    ensures After(cap, es) == To(s) && AllTold(es) && s.phase == Waiting(1, second) && s.exclude == {first}
    ensures s.accepted == map[] && s.pickedUp == {} && s.offered == {first, second} && 1 in s.city.taken && |s.city.issued| == 2
    ensures s.city.issued[1] == second && s.city.cap == cap && s.city.locks == map[] && s.city.carrying == {first, second}
    ensures s.city.row == Row(Assigned, first, 0)
  {
    es, s := ToOvertaken(cap, first);
    es, s := Offer(cap, es, s, second, true);
    es, s := Accept(cap, es, s, second, 1);
    assert s.city.locks == map[];
  }

  /** At a capacity of one the cascade then ends with the second rider, although the row
      is the first one's and nobody scanned anything. */
  lemma OvertakenTapCollectsNothing(first: Rider, second: Rider) returns (es: seq<Event>)
    requires first != second
    ensures After(1, es).To? && AllTold(es) && After(1, es).next.phase == Collected(second)
    ensures IsAssignedTo(After(1, es).next.city, first)
  {
    var s;
    es, s := ToBothTaken(1, first, second);
    es, s := Stall(1, es, s, 1, second);
    es, s := Go(1, es, s, Unassigns(true));
  }

  /** The second rider's tap was not heard in time: the expiry reports the first one. */
  lemma ToMisread(cap: nat, first: Rider, second: Rider) returns (es: seq<Event>, s: State)
    requires cap > 0 && first != second
    ensures After(cap, es) == To(s) && AllTold(es) && s.phase == Unassigning(first) && s.exclude == {first}
    ensures s.offered == {first, second} && s.city.cap == cap && s.city.locks == map[] && IsAssignedTo(s.city, first)
  {
    es, s := ToBothTaken(cap, first, second);
    es, s := Lapse(cap, es, s, 1, second);
    es, s := Misread(cap, es, s, 1, second, first);
  }

  /** With room for two the second rider is offered the order again. */
  lemma OvertakenTapRepeats(cap: nat, first: Rider, second: Rider) returns (es: seq<Event>)
    requires cap > 1 && first != second
    ensures Repeats(cap, es, second) && AllTold(es)
  {
    var s;
    es, s := ToMisread(cap, first, second);
    es, s := Revoke(cap, es, s, first);
    es := OfferAgain(cap, es, s, second);
  }
}
