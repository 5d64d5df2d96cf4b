/** DeliveryWorkflow: its signal handlers, the offer cascade `_assign` and `run`.
    Every signal received and every activity called goes into one log, in order,
    so that what a run did can be read off it. Time is counted in microseconds.
    Cancellation of the child is part of the saga's step relation, not of this one. */
module OfferCascade {
  import opened Options

  type Rider = string
  type OfferId = nat

  datatype Entry =
    // signals received
    | GotFoodReady
    | GotAccept(offer: OfferId, rider: Rider)
    | GotPickUp(rider: Rider)
    | GotDelivery(rider: Rider)
    // activities called, with their arguments and answers
    | Offered(offer: OfferId, rider: Rider, exclude: seq<Rider>)
    | NoCandidates(exclude: seq<Rider>)
    | ExpiredOffer(offer: OfferId, rider: Rider, courier: Option<Rider>)
    | RecordedRider(rider: Rider)
    | Revoked(rider: Rider)
    | FoundPickedUp(rider: Rider)
    | MarkedPickedUp(rider: Rider)
    | MarkedDelivered(rider: Rider)

  datatype Timers = Timers(firstWindow: int, nextWindow: int, deadline: int, retryPause: int, pickupTimeout: int) {
    /** Every pause takes time; a deadline may be zero. */
    predicate Positive() {
      firstWindow > 0 && nextWindow > 0 && retryPause > 0 && pickupTimeout > 0 && deadline >= 0
    }

    /** The least time an attempt that assigns nobody for good can take. */
    function Shortest(): int {
      var w := if firstWindow < nextWindow then firstWindow else nextWindow;
      var p := if retryPause < pickupTimeout then retryPause else pickupTimeout;
      if w < p then w else p
    }

    /** The most time one attempt can take when activities are instantaneous. */
    function Longest(): int {
      var w := if firstWindow > nextWindow then firstWindow else nextWindow;
      if retryPause > w + pickupTimeout then retryPause else w + pickupTimeout
    }

    function MaxAttempts(): int
      requires Positive()
    {
      (deadline + Shortest() - 1) / Shortest()
    }
  }

  // ── what a log says ──

  /** The riders offered the order since the exclusions were last cleared, as far as
      the workflow was told. Offers it was not told of are the subject of OfferRace. */
  function OfferedSinceReset(log: seq<Entry>): seq<Rider> {
    if |log| == 0 then []
    else OfferedAfter(OfferedSinceReset(log[..|log| - 1]), log[|log| - 1])
  }

  function OfferedAfter(before: seq<Rider>, e: Entry): seq<Rider> {
    if e.NoCandidates? then [] else if e.Offered? then before + [e.rider] else before
  }

  /** How many times dispatch was asked for a rider. */
  function Searches(log: seq<Entry>): nat {
    if |log| == 0 then 0
    else Searches(log[..|log| - 1]) + if log[|log| - 1].Offered? || log[|log| - 1].NoCandidates? then 1 else 0
  }

  predicate Distinct(s: seq<Rider>) { forall i, j :: 0 <= i < j < |s| ==> s[i] != s[j] }

  /** The rider most recently stamped onto the order. */
  function LastRecorded(log: seq<Entry>): Option<Rider> {
    if |log| == 0 then None
    else match log[|log| - 1]
         case RecordedRider(r) => Some(r)
         case _ => LastRecorded(log[..|log| - 1])
  }

  predicate Signal(e: Entry) { e.GotFoodReady? || e.GotAccept? || e.GotPickUp? || e.GotDelivery? }

  /** The last activity called, whatever signals came after it. */
  function LastActivity(log: seq<Entry>): Option<Entry> {
    if |log| == 0 then None
    else if Signal(log[|log| - 1]) then LastActivity(log[..|log| - 1])
    else Some(log[|log| - 1])
  }

  /** Who is out of the running: whose offers lapsed with nobody reported, and who was
      revoked, since nobody at all could be found. */
  function Excluded(log: seq<Entry>): seq<Rider> {
    if |log| == 0 then [] else ExcludedAfter(Excluded(log[..|log| - 1]), log[|log| - 1])
  }

  function ExcludedAfter(before: seq<Rider>, e: Entry): seq<Rider> {
    match e
    case NoCandidates(_) => []
    case ExpiredOffer(_, candidate, None) => before + [candidate]
    case Revoked(r) => before + [r]
    case _ => before
  }

  /** Nobody is being tried. */
  predicate AtSearch(log: seq<Entry>) {
    match LastActivity(log)
    case None => true
    case Some(a) => a.NoCandidates? || a.Revoked? || (a.ExpiredOffer? && a.courier.None?)
  }

  /** This rider has taken the order: the accept of the offer that is out was heard, or
      the expiry just made reported this rider. */
  predicate HasTaken(log: seq<Entry>, r: Rider) {
    match LastActivity(log)
    case Some(Offered(offer, _, _)) => GotAccept(offer, r) in log
    case Some(ExpiredOffer(_, _, courier)) => courier == Some(r)
    case _ => false
  }

  /** What each activity needs to have come before it. */
  predicate InTurn(log: seq<Entry>, e: Entry) {
    var last := LastActivity(log);
    match e
    case Offered(_, r, exclude) => AtSearch(log) && exclude == Excluded(log) && r !in exclude
    case NoCandidates(exclude) => AtSearch(log) && exclude == Excluded(log)
    case ExpiredOffer(offer, r, _) => last.Some? && last.value.Offered? && last.value.offer == offer && last.value.rider == r
    case RecordedRider(r) => HasTaken(log, r)
    case Revoked(r) => last == Some(RecordedRider(r))
    case FoundPickedUp(r) => last == Some(RecordedRider(r))
    case MarkedPickedUp(r) => (last == Some(RecordedRider(r)) && GotPickUp(r) in log) || last == Some(FoundPickedUp(r))
    case MarkedDelivered(r) => last == Some(MarkedPickedUp(r)) && GotDelivery(r) in log
    case _ => true
  }

  /** Evidence for one mark: it names the rider on record, and that same rider reported
      it, or dispatch found that rider's scan. */
  predicate EvidenceFor(log: seq<Entry>, e: Entry) {
    match e
    case MarkedPickedUp(r) => LastRecorded(log) == Some(r) && (GotPickUp(r) in log || FoundPickedUp(r) in log)
    case MarkedDelivered(r) => LastRecorded(log) == Some(r) && GotDelivery(r) in log && MarkedPickedUp(r) in log
    case _ => true
  }

  /** Every activity in its turn, every mark on evidence. */
  ghost predicate EntryIsEvidenced(log: seq<Entry>, i: nat)
    requires i < |log|
  {
    EvidenceFor(log[..i], log[i]) && InTurn(log[..i], log[i])
  }

  ghost predicate Evidenced(log: seq<Entry>) {
    forall i: nat {:trigger EntryIsEvidenced(log, i)} :: i < |log| ==> EntryIsEvidenced(log, i)
  }

  ghost predicate NobodyTwiceBefore(log: seq<Entry>, n: nat)
    requires n <= |log|
  {
    Distinct(OfferedSinceReset(log[..n]))
  }

  /** Between two resets the workflow is told of nobody twice, at any time. */
  ghost predicate NobodyTwice(log: seq<Entry>) {
    forall n: nat {:trigger NobodyTwiceBefore(log, n)} :: n <= |log| ==> NobodyTwiceBefore(log, n)
  }

  lemma {:induction false} LogGrows(log: seq<Entry>, e: Entry)
    ensures OfferedSinceReset(log + [e]) == OfferedAfter(OfferedSinceReset(log), e)
    ensures LastRecorded(log + [e]) == if e.RecordedRider? then Some(e.rider) else LastRecorded(log)
    ensures Searches(log + [e]) == Searches(log) + if e.Offered? || e.NoCandidates? then 1 else 0
    ensures LastActivity(log + [e]) == if Signal(e) then LastActivity(log) else Some(e)
    ensures Excluded(log + [e]) == ExcludedAfter(Excluded(log), e)
  {
    assert (log + [e])[..|log|] == log;
  }

  lemma EvidenceGrows(log: seq<Entry>, e: Entry)
    requires Evidenced(log) && EvidenceFor(log, e) && InTurn(log, e)
    ensures Evidenced(log + [e])
  {
    forall i: nat | i < |log| + 1 ensures EntryIsEvidenced(log + [e], i) {
      if i < |log| {
        assert EntryIsEvidenced(log, i);
        assert (log + [e])[..i] == log[..i];
      } else {
        assert (log + [e])[..i] == log;
      }
    }
  }

  lemma {:induction false} NobodyTwiceGrows(log: seq<Entry>, e: Entry)
    requires NobodyTwice(log) && (e.Offered? ==> e.rider !in OfferedSinceReset(log))
    ensures NobodyTwice(log + [e])
  {
    LogGrows(log, e);
    assert log[..|log|] == log && NobodyTwiceBefore(log, |log|);
    forall n: nat | n <= |log| + 1 ensures NobodyTwiceBefore(log + [e], n) {
      if n <= |log| {
        assert NobodyTwiceBefore(log, n);
        assert (log + [e])[..n] == log[..n];
      } else {
        assert (log + [e])[..n] == log + [e];
      }
    }
  }

  // ── what that makes of the next activity ──

  /** One activity, then only signals, then another. */
  predicate Adjacent(log: seq<Entry>, i: nat, j: nat) {
    i < j < |log| && !Signal(log[i]) && !Signal(log[j]) && forall k :: i < k < j ==> Signal(log[k])
  }

  lemma {:induction false} UpToNext(log: seq<Entry>, i: nat, j: nat)
    requires i < j <= |log| && !Signal(log[i]) && forall k :: i < k < j ==> Signal(log[k])
    ensures LastActivity(log[..j]) == Some(log[i]) && Excluded(log[..j]) == ExcludedAfter(Excluded(log[..i]), log[i])
  {
    assert log[..j][..j - 1] == log[..j - 1];
    if j - 1 > i {
      UpToNext(log, i, j - 1);
    }
  }

  /** A rider whom an expiry reports is recorded next, whoever was asked before. */
  lemma {:induction false} ReportedRiderIsRecorded(log: seq<Entry>, i: nat, j: nat, r: Rider)
    requires Evidenced(log) && Adjacent(log, i, j) && log[i].ExpiredOffer? && log[i].courier == Some(r)
    ensures log[j] == RecordedRider(r)
  {
    UpToNext(log, i, j);
    assert EntryIsEvidenced(log, j);
  }

  /** A candidate whose offer lapsed with nobody reported, and a rider who was revoked,
      are passed over by the next search, which is what comes next. */
  lemma {:induction false} LapsedRiderIsPassedOver(log: seq<Entry>, i: nat, j: nat, r: Rider)
    requires Evidenced(log) && Adjacent(log, i, j)
    requires log[i] == Revoked(r) || (log[i].ExpiredOffer? && log[i].courier == None && log[i].rider == r)
    ensures (log[j].Offered? || log[j].NoCandidates?) && r in log[j].exclude
    ensures log[j].Offered? ==> log[j].rider != r
  {
    UpToNext(log, i, j);
    assert EntryIsEvidenced(log, j);
  }

  /** After a search that found nobody everybody may be asked again. */
  lemma {:induction false} NobodyFoundClears(log: seq<Entry>, i: nat, j: nat)
    requires Evidenced(log) && Adjacent(log, i, j) && log[i].NoCandidates?
    ensures (log[j].Offered? || log[j].NoCandidates?) && log[j].exclude == []
  {
    UpToNext(log, i, j);
    assert EntryIsEvidenced(log, j);
  }

  /** An offer ends with its own expiry, or with the record of a rider whose accept of
      that very offer was received; a record ends with the rider's mark, on a scan, or
      with the rider's revocation. */
  lemma {:induction false} OfferAndRecordEnd(log: seq<Entry>, i: nat, j: nat)
    requires Evidenced(log) && Adjacent(log, i, j)
    ensures log[i].Offered? ==>
              || (log[j].ExpiredOffer? && log[j].offer == log[i].offer && log[j].rider == log[i].rider)
              || (log[j].RecordedRider? && GotAccept(log[i].offer, log[j].rider) in log[..j])
    ensures log[i].RecordedRider? ==>
              var r := log[i].rider;
              log[j] == Revoked(r) || log[j] == FoundPickedUp(r) || (log[j] == MarkedPickedUp(r) && GotPickUp(r) in log[..j])
  {
    UpToNext(log, i, j);
    assert EntryIsEvidenced(log, j);
  }

  /** The flags hold only signals of the log. */
  predicate Heard(log: seq<Entry>, foodReady: bool, accepted: map<OfferId, Rider>, pickedUp: set<Rider>, delivered: set<Rider>) {
    && (foodReady ==> GotFoodReady in log)
    && (forall o :: o in accepted ==> GotAccept(o, accepted[o]) in log)
    && (forall r :: r in pickedUp ==> GotPickUp(r) in log)
    && (forall r :: r in delivered ==> GotDelivery(r) in log)
  }

  predicate InCity(log: seq<Entry>, riders: set<Rider>) {
    forall i :: 0 <= i < |log| && log[i].Offered? ==> log[i].rider in riders
  }

  lemma HeardGrows(log: seq<Entry>, e: Entry, foodReady: bool, accepted: map<OfferId, Rider>, pickedUp: set<Rider>, delivered: set<Rider>)
    requires Heard(log, foodReady, accepted, pickedUp, delivered)
    ensures Heard(log + [e], foodReady, accepted, pickedUp, delivered)
  {
    assert forall x :: x in log ==> x in log + [e];
  }

  /** So consecutive offers never exceed the number of riders. */
  lemma OffersFitTheCity(log: seq<Entry>, riders: set<Rider>, n: nat)
    requires NobodyTwice(log) && n <= |log|
    requires forall i :: 0 <= i < n && log[i].Offered? ==> log[i].rider in riders
    ensures |OfferedSinceReset(log[..n])| <= |riders|
  {
    OfferedAreInLog(log[..n]);
    assert NobodyTwiceBefore(log, n);
    DistinctFits(OfferedSinceReset(log[..n]), riders);
  }

  lemma {:induction false} OfferedAreInLog(log: seq<Entry>)
    ensures forall r :: r in OfferedSinceReset(log) ==> exists i :: 0 <= i < |log| && log[i].Offered? && log[i].rider == r
  {
    if |log| > 0 {
      var before := log[..|log| - 1];
      OfferedAreInLog(before);
      forall r | r in OfferedSinceReset(log)
        ensures exists i :: 0 <= i < |log| && log[i].Offered? && log[i].rider == r
      {
        if r in OfferedSinceReset(before) {
          var i :| 0 <= i < |before| && before[i].Offered? && before[i].rider == r;
          assert log[i].Offered?;
        } else {
          assert log[|log| - 1].Offered?;
        }
      }
    }
  }

  /** No rider twice means no more offers than riders. */
  lemma {:induction false} DistinctFits(s: seq<Rider>, riders: set<Rider>)
    requires Distinct(s) && forall r :: r in s ==> r in riders
    ensures |s| <= |riders|
  {
    if |s| > 0 {
      var last := s[|s| - 1];
      DistinctFits(s[..|s| - 1], riders - {last});
    }
  }

  /** `n` times a duration. */
  function Spans(n: nat, unit: int): int { if n == 0 then 0 else Spans(n - 1, unit) + unit }

  lemma {:induction false} SpansIs(n: nat, unit: int)
    ensures Spans(n, unit) == n * unit
  {
    if n > 0 {
      SpansIs(n - 1, unit);
      assert n * unit == (n - 1) * unit + unit;
    }
  }

  /** An attempt that starts before the deadline is within the bound. */
  lemma AttemptFits(attempts: nat, t: Timers)
    requires t.Positive() && Spans(attempts, t.Shortest()) < t.deadline
    ensures attempts + 1 <= t.MaxAttempts()
  {
    SpansIs(attempts, t.Shortest());
    var m, q := t.Shortest(), t.MaxAttempts();
    assert q * m >= t.deadline;
    assert attempts * m < q * m;
  }

  /** Bounds on one attempt's time, and on the number of attempts. */
  datatype Limits = Limits(least: int, most: int, attempts: int)

  predicate Limit(t: Timers, l: Limits) {
    && t.Positive() && 0 < l.least
    && l.least <= t.firstWindow && l.least <= t.nextWindow && l.least <= t.retryPause && l.least <= t.pickupTimeout
    && t.retryPause <= l.most && t.firstWindow + t.pickupTimeout <= l.most && t.nextWindow + t.pickupTimeout <= l.most
  }

  /** When nobody is being tried, `attempt` searches after the start. */
  predicate SeekTimes(t: Timers, l: Limits, start: int, attempt: nat, now: int, prompt: bool) {
    && start <= now && now >= start + Spans(attempt, l.least)
    && (prompt ==> now < start + t.deadline + l.most && now <= start + Spans(attempt, l.most))
  }

  /** When the pickup clock of the last search's rider starts. */
  predicate TryTimes(t: Timers, l: Limits, start: int, attempt: nat, now: int, prompt: bool)
    requires attempt > 0
  {
    && start <= now && now >= start + Spans(attempt - 1, l.least)
    && (prompt ==> now < start + t.deadline + l.most - t.pickupTimeout
                   && now <= start + Spans(attempt, l.most) - t.pickupTimeout)
  }

  /** A search that begins before the deadline and takes `span`. */
  lemma SearchTakes(t: Timers, l: Limits, start: int, attempt: nat, was: int, now: int, prompt: bool)
    requires Limit(t, l) && attempt > 0 && SeekTimes(t, l, start, attempt - 1, was, prompt) && was < start + t.deadline
    ensures was + l.least <= now && (prompt ==> now <= was + l.most) ==> SeekTimes(t, l, start, attempt, now, prompt)
    ensures was <= now && (prompt ==> now <= was + l.most - t.pickupTimeout) ==> TryTimes(t, l, start, attempt, now, prompt)
  {
  }

  /** A pickup clock that runs out. */
  lemma ClockTakes(t: Timers, l: Limits, start: int, attempt: nat, was: int, now: int, prompt: bool)
    requires Limit(t, l) && attempt > 0 && TryTimes(t, l, start, attempt, was, prompt)
    requires now >= was + t.pickupTimeout && (prompt ==> now <= was + t.pickupTimeout)
    ensures SeekTimes(t, l, start, attempt, now, prompt)
  {
  }

  class DeliveryWorkflow {
    const riders: set<Rider>
    /** Activities take no time and timers fire on time. */
    const prompt: bool
    /** Dispatch's word: an offer is taken by the rider it was made to. */
    const candid: bool

    var foodReady: bool
    var accepted: map<OfferId, Rider>
    var pickedUp: set<Rider>
    var delivered: set<Rider>

    var now: int
    var issued: seq<Rider>  // the candidate of each offer made, by offer id
    var log: seq<Entry>

    constructor (riders: set<Rider>, prompt: bool, candid: bool, start: int)
      ensures this.riders == riders && this.prompt == prompt && this.candid == candid
      ensures now == start && log == [] && Valid()
    {
      this.riders, this.prompt, this.candid := riders, prompt, candid;
      foodReady, accepted, pickedUp, delivered := false, map[], {}, {};
      now, issued, log := start, [], [];
    }

    /** The flags hold exactly the signals of the log; the log is in order. */
    ghost predicate Valid()
      reads this
    {
      && Heard(log, foodReady, accepted, pickedUp, delivered)
      && InCity(log, riders)
      && (candid ==> Candid() && NobodyTwice(log))
      && Evidenced(log)
    }

    ghost predicate Candid()
      reads this
    {
      forall o :: o in accepted ==> o < |issued| && accepted[o] == issued[o]
    }

    method Append(e: Entry)
      requires Valid()
      requires EvidenceFor(log, e) && InTurn(log, e)
      requires e.Offered? ==> e.rider in riders && (candid ==> e.rider !in OfferedSinceReset(log))
      modifies this`log
      ensures Valid() && log == old(log) + [e] && e in log
      ensures OfferedSinceReset(log) == OfferedAfter(old(OfferedSinceReset(log)), e)
      ensures LastRecorded(log) == if e.RecordedRider? then Some(e.rider) else old(LastRecorded(log))
      ensures Searches(log) == old(Searches(log)) + if e.Offered? || e.NoCandidates? then 1 else 0
      ensures LastActivity(log) == if Signal(e) then old(LastActivity(log)) else Some(e)
      ensures Excluded(log) == ExcludedAfter(old(Excluded(log)), e)
    {
      LogGrows(log, e);
      HeardGrows(log, e, foodReady, accepted, pickedUp, delivered);
      EvidenceGrows(log, e);
      if candid {
        NobodyTwiceGrows(log, e);
      }
      log := log + [e];
    }

    // ── signals: each is a flag or an idempotent write ──

    method FoodReady()
      requires Valid()
      modifies this`foodReady, this`log
      ensures Valid() && foodReady && log == old(log) + [GotFoodReady] && Undisturbed(old(log), log)
    {
      Append(GotFoodReady);
      foodReady := true;
    }

    method OfferAccepted(offer: OfferId, rider: Rider)
      requires Valid() && (candid ==> offer < |issued| && issued[offer] == rider)
      modifies this`accepted, this`log
      ensures Valid() && accepted == old(accepted)[offer := rider]
      ensures log == old(log) + [GotAccept(offer, rider)] && Undisturbed(old(log), log)
    {
      Append(GotAccept(offer, rider));
      accepted := accepted[offer := rider];
    }

    method CourierPickedUp(rider: Rider)
      requires Valid()
      modifies this`pickedUp, this`log
      ensures Valid() && pickedUp == old(pickedUp) + {rider}
      ensures log == old(log) + [GotPickUp(rider)] && Undisturbed(old(log), log)
    {
      Append(GotPickUp(rider));
      pickedUp := pickedUp + {rider};
    }

    method CourierDelivered(rider: Rider)
      requires Valid()
      modifies this`delivered, this`log
      ensures Valid() && delivered == old(delivered) + {rider}
      ensures log == old(log) + [GotDelivery(rider)] && Undisturbed(old(log), log)
    {
      Append(GotDelivery(rider));
      delivered := delivered + {rider};
    }

    // ── the environment ──

    /** Any signals at all arrive, in any number and order. */
    method SignalsArrive()
      requires Valid()
      modifies this`foodReady, this`accepted, this`pickedUp, this`delivered, this`log
      ensures Valid() && Undisturbed(old(log), log)
    {
      var n: int := *;
      while n > 0
        invariant Valid() && Undisturbed(old(log), log)
      {
        var kind: int, offer: OfferId, rider: Rider := *, *, *;
        if kind == 0 {
          FoodReady();
        } else if kind == 1 && (candid ==> offer < |issued| && issued[offer] == rider) {
          OfferAccepted(offer, rider);
        } else if kind == 2 {
          CourierPickedUp(rider);
        } else {
          CourierDelivered(rider);
        }
        n := n - 1;
      }
    }

    /** At least `span` passes; exactly `span` when everything is prompt. */
    method Elapse(span: int)
      requires span >= 0
      modifies this`now
      ensures now >= old(now) + span && (prompt ==> now == old(now) + span)
    {
      var lag: int := *;
      now := now + span + if prompt || lag < 0 then 0 else lag;
    }

    /** A bounded wait that was satisfied ends inside its bound. */
    method ElapseWithin(span: int)
      requires span >= 0
      modifies this`now
      ensures now >= old(now) && (prompt ==> now <= old(now) + span)
    {
      var lag: int := *;
      now := now + if lag < 0 then 0 else if prompt && lag > span then span else lag;
    }

    // ── the activities, with what dispatch promises of its answers ──

    method FindAndOffer(exclude: seq<Rider>) returns (offer: Option<OfferId>)
      requires Valid() && AtSearch(log) && exclude == Excluded(log) && (candid ==> exclude == OfferedSinceReset(log))
      modifies this
      ensures Valid() && old(now) <= now && (prompt ==> now == old(now))
      ensures old(log) <= log && LastRecorded(log) == old(LastRecorded(log))
      ensures offer.Some? ==> offer.value < |issued|
      ensures LastActivity(log) == Some(if offer.Some? then Offered(offer.value, issued[offer.value], exclude)
                                        else NoCandidates(exclude))
      ensures Excluded(log) == if offer.Some? then exclude else []
      ensures Searches(log) == old(Searches(log)) + 1
      ensures offer.None? ==> OfferedSinceReset(log) == []
      ensures offer.Some? ==> issued[offer.value] !in exclude
                              && OfferedSinceReset(log) == old(OfferedSinceReset(log)) + [issued[offer.value]]
    {
      SignalsArrive();
      Elapse(0);
      var willing := set r | r in riders && r !in exclude;
      var quiet: bool := *;
      if willing == {} || quiet {
        Append(NoCandidates(exclude));
        return None;
      }
      var candidate :| candidate in willing;
      offer := Some(|issued|);
      Append(Offered(|issued|, candidate, exclude));
      Issue(candidate);
    }

    /** Offer ids are minted one after the other. */
    method Issue(candidate: Rider)
      requires Valid()
      modifies this`issued
      ensures Valid() && issued == old(issued) + [candidate]
    {
      issued := issued + [candidate];
    }

    method ExpireOffer(offer: OfferId, candidate: Rider) returns (courier: Option<Rider>)
      requires Valid() && IsOut(log, offer, candidate)
      modifies this`foodReady, this`accepted, this`pickedUp, this`delivered, this`log, this`now
      ensures Valid() && old(log) <= log && Kept(old(log), log) && old(now) <= now && (prompt ==> now == old(now))
      ensures LastActivity(log) == Some(ExpiredOffer(offer, candidate, courier))
      ensures Excluded(log) == if courier.None? then old(Excluded(log)) + [candidate] else old(Excluded(log))
      ensures candid && courier.Some? ==> courier.value == candidate
    {
      SignalsArrive();
      Elapse(0);
      var beaten: bool, taker: Rider := *, *;
      courier := if beaten then Some(if candid then candidate else taker) else None;
      Append(ExpiredOffer(offer, candidate, courier));
    }

    method RecordRider(rider: Rider)
      requires Valid() && HasTaken(log, rider)
      modifies this`foodReady, this`accepted, this`pickedUp, this`delivered, this`log, this`now
      ensures Valid() && old(now) <= now && (prompt ==> now == old(now))
      ensures old(log) <= log && LastRecorded(log) == Some(rider) && LastActivity(log) == Some(RecordedRider(rider))
      ensures OfferedSinceReset(log) == old(OfferedSinceReset(log)) && Searches(log) == old(Searches(log))
      ensures Excluded(log) == old(Excluded(log))
    {
      SignalsArrive();
      StillTaken(old(log), log, rider);
      Elapse(0);
      Append(RecordedRider(rider));
    }

    method UnassignStalled(rider: Rider) returns (alreadyPickedUp: bool)
      requires Valid() && LastActivity(log) == Some(RecordedRider(rider))
      modifies this`foodReady, this`accepted, this`pickedUp, this`delivered, this`log, this`now
      ensures Valid() && old(log) <= log && Kept(old(log), log) && old(now) <= now && (prompt ==> now == old(now))
      ensures LastActivity(log) == Some(if alreadyPickedUp then FoundPickedUp(rider) else Revoked(rider))
      ensures Excluded(log) == if alreadyPickedUp then old(Excluded(log)) else old(Excluded(log)) + [rider]
      ensures alreadyPickedUp ==> FoundPickedUp(rider) in log
    {
      SignalsArrive();
      Elapse(0);
      alreadyPickedUp := *;
      Append(if alreadyPickedUp then FoundPickedUp(rider) else Revoked(rider));
    }

    /** `wait_condition` on the offer's own accept, bounded by its window. */
    method WaitAccepted(offer: OfferId, window: int) returns (heard: bool)
      requires Valid() && window >= 0
      modifies this`foodReady, this`accepted, this`pickedUp, this`delivered, this`log, this`now
      ensures Valid() && Undisturbed(old(log), log) && old(now) <= now
      ensures heard ==> offer in accepted
      ensures !heard ==> now >= old(now) + window
      ensures prompt ==> now <= old(now) + window
    {
      SignalsArrive();
      heard := *;
      heard := heard && offer in accepted;
      if heard {
        ElapseWithin(window);
      } else {
        Elapse(window);
      }
    }

    /** `wait_condition` on the current rider's own pickup. */
    method WaitPickedUp(rider: Rider, span: int) returns (heard: bool)
      requires Valid() && span >= 0
      modifies this`foodReady, this`accepted, this`pickedUp, this`delivered, this`log, this`now
      ensures Valid() && Undisturbed(old(log), log) && old(now) <= now
      ensures heard ==> GotPickUp(rider) in log
      ensures !heard ==> now >= old(now) + span
      ensures prompt ==> now <= old(now) + span
    {
      SignalsArrive();
      heard := *;
      heard := heard && rider in pickedUp;
      if heard {
        ElapseWithin(span);
      } else {
        Elapse(span);
      }
    }

    // ── the cascade ──

    /** Where the cascade stands when no rider is being tried: `attempt` searches
        made, each of which took its time, and `exclude` the riders offered since
        the last reset. */
    ghost predicate Seeking(t: Timers, l: Limits, start: int, attempt: nat, exclude: seq<Rider>)
      reads this
    {
      && Valid() && attempt == Searches(log) <= l.attempts && SeekTimes(t, l, start, attempt, now, prompt)
      && AtSearch(log) && exclude == Excluded(log) && (candid ==> exclude == OfferedSinceReset(log))
    }

    /** One attempt: search, and if somebody was offered the order, wait out the
        window and learn who took it. */
    method Attempt(t: Timers, ghost l: Limits, ghost start: int, attempt: nat, exclude: seq<Rider>)
      returns (rider: Option<Rider>, exclude': seq<Rider>)
      requires Limit(t, l) && 1 <= attempt <= l.attempts
      requires Seeking(t, l, start, attempt - 1, exclude) && now < start + t.deadline
      modifies this
      ensures old(now) <= now && old(log) <= log && LastActivity(log).Some?
      ensures rider.None? ==> old(now) < now && Seeking(t, l, start, attempt, exclude')
      ensures rider.Some? ==> exclude' == exclude && Trying(t, l, start, attempt, exclude, rider.value)
      // nobody to offer it to; or the offer's accept was heard; or the expiry's answer
      ensures var last := LastActivity(log).value;
              || (last == NoCandidates(exclude) && rider.None? && exclude' == [])
              || (last.Offered? && rider.Some? && last.offer in accepted && rider.value == accepted[last.offer])
              || (last.ExpiredOffer? && rider == last.courier)
      // each after its own wait
      ensures var last, span := LastActivity(log).value, if attempt == 1 then t.firstWindow else t.nextWindow;
              && (last.NoCandidates? ==> now >= old(now) + t.retryPause)
              && (last.ExpiredOffer? ==> now >= old(now) + span)
              && (prompt ==> now <= old(now) + if last.NoCandidates? then t.retryPause else span)
    {
      exclude' := exclude;
      ghost var was := now;
      var offer := FindAndOffer(exclude);
      if offer.None? {
        Elapse(t.retryPause);
        SearchTakes(t, l, start, attempt, was, now, prompt);
        return None, [];
      }
      var candidate := issued[offer.value];
      rider := WaitOut(offer.value, if attempt == 1 then t.firstWindow else t.nextWindow);
      SearchTakes(t, l, start, attempt, was, now, prompt);
      if rider.None? {
        exclude' := exclude + [candidate];
      }
    }

    /** The window of one offer. A heard accept gives the rider who accepted; otherwise
        the offer is expired, and whoever the expiry reports has it, or nobody. */
    method WaitOut(offer: OfferId, window: int) returns (rider: Option<Rider>)
      requires Valid() && window >= 0 && offer < |issued| && IsOut(log, offer, issued[offer])
      modifies this`foodReady, this`accepted, this`pickedUp, this`delivered, this`log, this`now
      ensures Valid() && old(log) <= log && Kept(old(log), log) && old(now) <= now
      ensures if LastActivity(log) == old(LastActivity(log)) then offer in accepted && rider == Some(accepted[offer])
              else LastActivity(log) == Some(ExpiredOffer(offer, issued[offer], rider)) && now >= old(now) + window
      ensures rider.Some? ==> HasTaken(log, rider.value) && Excluded(log) == old(Excluded(log))
      ensures rider.None? ==> AtSearch(log) && Excluded(log) == old(Excluded(log)) + [issued[offer]]
      ensures prompt ==> now <= old(now) + window
      ensures candid && rider.Some? ==> rider.value == issued[offer]
    {
      var heard := WaitAccepted(offer, window);
      if heard {
        return Some(accepted[offer]);
      }
      rider := ExpireOffer(offer, issued[offer]);
    }

    /** The pickup clock of the rider just found: collected on that rider's own
        evidence, or revoked once the clock ran out. */
    method AwaitPickup(t: Timers, ghost l: Limits, ghost start: int, ghost attempt: nat, ghost exclude: seq<Rider>, rider: Rider)
      returns (collected: bool)
      requires Limit(t, l) && Trying(t, l, start, attempt, exclude, rider)
      modifies this`foodReady, this`accepted, this`pickedUp, this`delivered, this`log, this`now
      ensures old(log) <= log && old(now) <= now
      ensures collected ==> Valid() && Searches(log) <= l.attempts && LastRecorded(log) == Some(rider)
      ensures collected ==> GotPickUp(rider) in log || FoundPickedUp(rider) in log
      ensures collected ==> HasFood(log, rider)
      ensures !collected ==> LastActivity(log) == Some(Revoked(rider))
      ensures !collected ==> old(now) < now && Seeking(t, l, start, attempt, exclude + [rider])
    {
      ghost var was := now;
      RecordRider(rider);
      collected := WaitPickedUp(rider, t.pickupTimeout);
      if !collected {
        collected := UnassignStalled(rider);
        ClockTakes(t, l, start, attempt, was, now, prompt);
      }
    }

    method Assign(t: Timers) returns (courier: Option<Rider>)
      requires Valid() && t.Positive() && OfferedSinceReset(log) == [] && Searches(log) == 0
      requires AtSearch(log) && Excluded(log) == []
      modifies this
      // every activity in its turn
      ensures Valid() && old(log) <= log
      // it ends, within the bound, for any activity durations
      ensures Searches(log) <= t.MaxAttempts()
      // giving up comes no earlier than the deadline, and promptly after it
      ensures courier.None? ==> now >= old(now) + t.deadline
      ensures courier.None? && prompt ==> now < old(now) + t.deadline + t.Longest()
      // and only after searching all the while
      ensures courier.None? && prompt ==> Searches(log) * t.Longest() >= t.deadline
      // the rider returned is the one on record, on that rider's own evidence
      ensures courier.Some? ==> LastRecorded(log) == courier
      ensures courier.Some? ==> GotPickUp(courier.value) in log || FoundPickedUp(courier.value) in log
      ensures courier.Some? ==> HasFood(log, courier.value)
      ensures courier.None? ==> AtSearch(log)
    {
      var start, deadline := now, now + t.deadline;
      ghost var l := Limits(t.Shortest(), t.Longest(), t.MaxAttempts());
      var exclude: seq<Rider> := [];
      var attempt: nat := 0;
      while true
        invariant Seeking(t, l, start, attempt, exclude) && old(log) <= log
        decreases deadline - now
      {
        ghost var head := now;
        var rider: Option<Rider> := None;
        while rider.None?
          invariant head <= now && old(log) <= log
          invariant rider.None? ==> Seeking(t, l, start, attempt, exclude)
          invariant rider.Some? ==> head < deadline && Trying(t, l, start, attempt, exclude, rider.value)
          decreases rider.None?, deadline - now
        {
          if now >= deadline {
            SpansIs(attempt, t.Longest());
            return None;
          }
          AttemptFits(attempt, t);
          attempt := attempt + 1;
          rider, exclude := Attempt(t, l, start, attempt, exclude);
        }
        var collected := AwaitPickup(t, l, start, attempt, exclude, rider.value);
        if collected {
          return rider;
        }
        exclude := exclude + [rider.value];
      }
    }

    /** A rider has taken the order and the pickup clock is about to start. */
    ghost predicate Trying(t: Timers, l: Limits, start: int, attempt: nat, exclude: seq<Rider>, rider: Rider)
      reads this
    {
      && Valid() && 1 <= attempt == Searches(log) <= l.attempts && TryTimes(t, l, start, attempt, now, prompt)
      && HasTaken(log, rider) && exclude == Excluded(log) && (candid ==> OfferedSinceReset(log) == exclude + [rider])
    }

    /** The whole delivery: wait for the food, find a courier, and mark the pickup
        and the delivery on that courier's own word. None is NO_RIDER. */
    method Run(t: Timers) returns (courier: Option<Rider>)
      requires Valid() && t.Positive() && OfferedSinceReset(log) == [] && Searches(log) == 0
      requires AtSearch(log) && Excluded(log) == []
      modifies this
      ensures Valid() && Searches(log) <= t.MaxAttempts()
      ensures GotFoodReady in log
      ensures courier.Some? ==> MarkedPickedUp(courier.value) in log && MarkedDelivered(courier.value) in log
    {
      SignalsArrive();
      if !foodReady {
        FoodReady();
      }
      courier := Assign(t);
      if courier.None? {
        return;
      }
      CarryOut(courier.value);
    }

    /** The marks, each on the recorded rider's own word. */
    method CarryOut(r: Rider)
      requires Valid() && LastRecorded(log) == Some(r) && HasFood(log, r)
      requires GotPickUp(r) in log || FoundPickedUp(r) in log
      modifies this`foodReady, this`accepted, this`pickedUp, this`delivered, this`log
      ensures Valid() && old(log) <= log && Searches(log) == old(Searches(log))
      ensures MarkedPickedUp(r) in log && MarkedDelivered(r) in log
    {
      PickUp(r);
      ghost var picked := log;
      WaitDelivered(r);
      StillIn(picked, log, MarkedPickedUp(r));
      Append(MarkedDelivered(r));
    }

    /** `wait_condition` on the rider's own delivery, without a bound. */
    method WaitDelivered(r: Rider)
      requires Valid()
      modifies this`foodReady, this`accepted, this`pickedUp, this`delivered, this`log
      ensures Valid() && Undisturbed(old(log), log) && GotDelivery(r) in log
    {
      SignalsArrive();
      if r !in delivered {
        CourierDelivered(r);
      }
    }

    method PickUp(r: Rider)
      requires Valid() && LastRecorded(log) == Some(r) && HasFood(log, r)
      requires GotPickUp(r) in log || FoundPickedUp(r) in log
      modifies this`foodReady, this`accepted, this`pickedUp, this`delivered, this`log
      ensures Valid() && old(log) <= log && Searches(log) == old(Searches(log))
      ensures LastRecorded(log) == Some(r) && MarkedPickedUp(r) in log && LastActivity(log) == Some(MarkedPickedUp(r))
    {
      SignalsArrive();
      if GotPickUp(r) in old(log) {
        StillIn(old(log), log, GotPickUp(r));
      } else {
        StillIn(old(log), log, FoundPickedUp(r));
      }
      Append(MarkedPickedUp(r));
    }
  }

  lemma StillIn(before: seq<Entry>, after: seq<Entry>, e: Entry)
    requires before <= after && e in before
    ensures e in after
  {
    var i :| 0 <= i < |before| && before[i] == e;
    assert after[i] == e;
  }

  /** This rider's scan is on record: signalled, or found by dispatch. */
  predicate HasFood(log: seq<Entry>, r: Rider) {
    (LastActivity(log) == Some(RecordedRider(r)) && GotPickUp(r) in log) || LastActivity(log) == Some(FoundPickedUp(r))
  }

  predicate IsOut(log: seq<Entry>, offer: OfferId, r: Rider) {
    match LastActivity(log)
    case Some(Offered(o, candidate, _)) => o == offer && candidate == r
    case _ => false
  }

  lemma StillTaken(before: seq<Entry>, after: seq<Entry>, r: Rider)
    requires Undisturbed(before, after) && HasTaken(before, r)
    ensures HasTaken(after, r)
  {
    assert forall e :: e in before ==> e in after;
  }

  /** What neither signals nor an expiry or a revocation change. */
  ghost predicate Kept(before: seq<Entry>, after: seq<Entry>) {
    && OfferedSinceReset(after) == OfferedSinceReset(before)
    && LastRecorded(after) == LastRecorded(before)
    && Searches(after) == Searches(before)
  }

  /** Signals alone neither offer, record nor mark. */
  ghost predicate Undisturbed(before: seq<Entry>, after: seq<Entry>) {
    before <= after && Kept(before, after) && LastActivity(after) == LastActivity(before) && Excluded(after) == Excluded(before)
  }
}
