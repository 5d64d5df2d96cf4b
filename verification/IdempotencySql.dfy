/** `reserve` at the granularity of its SQL statements, for one key and any number
    of concurrent clients: INSERT, then SELECT, then the guarded UPDATE of the
    take-over. `repaired` selects a guard that also compares `created_at`; the
    store's own guard compares the status alone. */
module IdempotencySql {

  datatype Status = InProgress | Complete

  /** `owner` is the client that wrote the row last; no statement reads it. */
  datatype Row = NoRow | Row(status: Status, created: int, owner: nat)

  /** Where a client stands. `TakingOver` has read an expired row and is about to
      issue the UPDATE. */
  datatype Client =
    | Start | Conflicted | TakingOver(expected: Status, seen: int)
    | Won(since: int) | Waiting | Finished

  datatype Config = Config(replayTtl: int, inProgressTtl: int) {
    predicate Sound() { replayTtl >= 0 && inProgressTtl >= 0 }
  }

  /** `completeWins` counts take-overs of a COMPLETE row since the last completion;
      `taken` holds the `created_at` of every row that was taken over. */
  datatype State = State(
    row: Row, now: int, clients: map<nat, Client>,
    completeWins: nat, taken: multiset<int>)
  {
    function At(who: nat): Client { if who in clients then clients[who] else Start }
    function Put(who: nat, c: Client): State { this.(clients := clients[who := c]) }
  }

  datatype Step = Blocked | To(next: State)

  datatype Event =
    | Insert(who: nat) | Select(who: nat) | Update(who: nat)
    | Finish(who: nat) | Release(who: nat)
    | Purge | Tick(span: nat)

  predicate Expired(c: Config, row: Row, now: int)
    requires row.Row?
  {
    now - row.created > if row.status.Complete? then c.replayTtl else c.inProgressTtl
  }

  /** What a client that lost the insert makes of the row it reads. */
  function Reading(c: Config, row: Row, now: int): Client {
    if row.NoRow? || !Expired(c, row, now) then Waiting else TakingOver(row.status, row.created)
  }

  /** Whether the UPDATE of a take-over matches the row. */
  predicate Matches(row: Row, taking: Client, repaired: bool)
    requires taking.TakingOver?
  {
    row.Row? && row.status == taking.expected && (repaired ==> row.created == taking.seen)
  }

  function TakeOver(s: State, who: nat): State
    requires s.row.Row?
  {
    s.Put(who, Won(s.now)).(
      row := Row(InProgress, s.now, who),
      completeWins := s.completeWins + if s.row.status.Complete? then 1 else 0,
      taken := s.taken + multiset{s.row.created})
  }

  /** One statement. Holders complete and release within the take-over window, or
      crash and never do; a client that must wait comes back as a new one. */
  function Next(c: Config, s: State, e: Event, repaired: bool): Step {
    match e
    case Insert(who) =>
      if !s.At(who).Start? then Blocked
      else if s.row.NoRow? then To(s.Put(who, Won(s.now)).(row := Row(InProgress, s.now, who)))
      else To(s.Put(who, Conflicted))
    case Select(who) =>
      if s.At(who).Conflicted? then To(s.Put(who, Reading(c, s.row, s.now))) else Blocked
    case Update(who) =>
      if !s.At(who).TakingOver? then Blocked
      else if Matches(s.row, s.At(who), repaired) then To(TakeOver(s, who))
      else To(s.Put(who, Waiting))
    case Finish(who) =>
      if !s.At(who).Won? || s.now - s.At(who).since > c.inProgressTtl then Blocked
      else To(s.Put(who, Finished).(row := if s.row.Row? then s.row.(status := Complete) else NoRow, completeWins := 0))
    case Release(who) =>
      if !s.At(who).Won? || s.now - s.At(who).since > c.inProgressTtl then Blocked
      else To(s.Put(who, Finished).(row := NoRow))
    case Purge => if s.row.Row? && Expired(c, s.row, s.now) then To(s.(row := NoRow)) else Blocked
    case Tick(span) => To(s.(now := s.now + span))
  }

  const START := State(NoRow, 0, map[], 0, multiset{})

  function After(c: Config, es: seq<Event>, repaired: bool): Step {
    if |es| == 0 then To(START)
    else match After(c, es[..|es| - 1], repaired)
         case Blocked => Blocked
         case To(s) => Next(c, s, es[|es| - 1], repaired)
  }

  // ── a client alone ──

  /** The row's time is up: the replay window for an answer, the take-over window for a
      holder. */
  predicate TimeIsUp(c: Config, row: Row, now: int)
    requires row.Row?
  {
    (row.status.Complete? && now - row.created > c.replayTtl) || (row.status.InProgress? && now - row.created > c.inProgressTtl)
  }

  /** Whose three statements nobody interrupts holds the key iff there was no row or its
      time was up, whichever guard is used; otherwise it waits and changes nothing. */
  lemma LoneClientIff(c: Config, s: State, who: nat, repaired: bool)
    requires s.At(who).Start?
    ensures var inserted := Next(c, s, Insert(who), repaired);
            && inserted.To?
            && (s.row.NoRow? ==> inserted.next.At(who) == Won(s.now) && inserted.next.row == Row(InProgress, s.now, who))
            && (s.row.Row? ==>
                  var selected := Next(c, inserted.next, Select(who), repaired);
                  && inserted.next.row == s.row && selected.To? && selected.next.row == s.row
                  && (!TimeIsUp(c, s.row, s.now) ==> selected.next.At(who).Waiting?)
                  && (TimeIsUp(c, s.row, s.now) ==>
                        var updated := Next(c, selected.next, Update(who), repaired);
                        updated.To? && updated.next.At(who) == Won(s.now) && updated.next.row == Row(InProgress, s.now, who)))
  {
  }

  /** Who loses the update waits; the janitor removes a row once its time is up. */
  lemma LosersWaitAndJanitorsClean(c: Config, s: State, who: nat, repaired: bool)
    ensures s.At(who).TakingOver? && !Matches(s.row, s.At(who), repaired) ==>
              var lost := Next(c, s, Update(who), repaired);
              lost.To? && lost.next.At(who).Waiting? && lost.next.row == s.row
    ensures Next(c, s, Purge, repaired).To? <==> s.row.Row? && TimeIsUp(c, s.row, s.now)
    ensures Next(c, s, Purge, repaired).To? ==> Next(c, s, Purge, repaired).next.row.NoRow?
  {
  }

  // ── the COMPLETE guard referees ──

  predicate CompleteInv(s: State) {
    s.completeWins <= 1 && (s.completeWins == 1 && s.row.Row? ==> s.row.status.InProgress?)
  }

  lemma StepKeepsCompleteInv(c: Config, s: State, e: Event, repaired: bool)
    requires CompleteInv(s) && Next(c, s, e, repaired).To?
    ensures CompleteInv(Next(c, s, e, repaired).next)
  {
    match e {
      case Update(who) =>
      case _ =>
    }
  }

  /** Whichever guard is used, a COMPLETE row is taken over at most once until some
      holder completes it again. */
  lemma {:induction false} OneTakerOfACompleteRow(c: Config, es: seq<Event>, repaired: bool)
    requires After(c, es, repaired).To?
    ensures CompleteInv(After(c, es, repaired).next)
  {
    if |es| > 0 {
      OneTakerOfACompleteRow(c, es[..|es| - 1], repaired);
      StepKeepsCompleteInv(c, After(c, es[..|es| - 1], repaired).next, es[|es| - 1], repaired);
    }
  }

  // ── the IN_PROGRESS guard does not ──

  /** The clients' UPDATE statements in turn, under the store's own guard. */
  function Updates(c: Config, s: State, whos: seq<nat>): Step {
    if |whos| == 0 then To(s)
    else match Updates(c, s, whos[..|whos| - 1])
         case Blocked => Blocked
         case To(p) => Next(c, p, Update(whos[|whos| - 1]), false)
  }

  /** The guard is left true by its own write: every client that read the stale
      row wins, one after the other, however many there are. */
  lemma {:induction false} EveryTakerOfAStaleRowWins(c: Config, s: State, whos: seq<nat>)
    requires s.row.Row? && s.row.status.InProgress?
    requires forall i :: 0 <= i < |whos| ==> s.At(whos[i]).TakingOver? && s.At(whos[i]).expected.InProgress?
    requires forall i, j :: 0 <= i < j < |whos| ==> whos[i] != whos[j]
    ensures var end := Updates(c, s, whos);
            && end.To? && end.next.row.Row? && end.next.row.status.InProgress? && end.next.now == s.now
            && (forall i :: 0 <= i < |whos| ==> end.next.At(whos[i]) == Won(s.now))
            && (forall who :: who !in whos ==> end.next.At(who) == s.At(who))
  {
    if |whos| > 0 {
      var rest := whos[..|whos| - 1];
      EveryTakerOfAStaleRowWins(c, s, rest);
      assert forall who :: who !in whos ==> who !in rest;
      assert whos[|whos| - 1] !in rest;
    }
  }

  lemma Go(c: Config, es: seq<Event>, s: State, e: Event) returns (es': seq<Event>, s': State)
    requires After(c, es, false) == To(s) && Next(c, s, e, false).To?
    ensures es' == es + [e] && s' == Next(c, s, e, false).next && After(c, es', false) == To(s')
  {
    es', s' := es + [e], Next(c, s, e, false).next;
    assert es'[..|es|] == es;
  }

  /** So two requests come to hold one key at once, both alive and neither
      finished: the holder crashed, both read the stale row, both updates match. */
  lemma TwoHoldersAtOnce(c: Config) returns (es: seq<Event>)
    requires c.Sound()
    ensures After(c, es, false).To?
    ensures Holds(c, After(c, es, false).next, 1) && Holds(c, After(c, es, false).next, 2)
  {
    var s;
    es, s := [], START;
    es, s := Go(c, es, s, Insert(0));
    es, s := Go(c, es, s, Tick(c.inProgressTtl + 1));
    es, s := Go(c, es, s, Insert(1));
    es, s := Go(c, es, s, Insert(2));
    es, s := Go(c, es, s, Select(1));
    es, s := Go(c, es, s, Select(2));
    es, s := Go(c, es, s, Update(1));
    es, s := Go(c, es, s, Update(2));
  }

  // ── the repaired guard ──

  /** The client was told Reserved, has not finished, and is inside its window. */
  predicate Holds(c: Config, s: State, who: nat) {
    s.At(who).Won? && s.now - s.At(who).since <= c.inProgressTtl
  }

  ghost predicate RepairedInv(c: Config, s: State) {
    && (s.row.Row? ==> s.row.created <= s.now)
    && (forall who :: s.At(who).Won? ==> s.At(who).since <= s.now)
    // what a client read as expired is expired still
    && (forall who :: s.At(who).TakingOver? ==> Expired(c, Row(s.At(who).expected, s.At(who).seen, who), s.now))
    // a living holder's row is its own
    && (forall who :: Holds(c, s, who) ==> s.row == Row(InProgress, s.At(who).since, who))
    // no incarnation was taken twice
    && (forall at :: at in s.taken ==> at < s.now && s.taken[at] == 1)
    && (forall at :: at in s.taken && s.row.Row? ==> at < s.row.created)
  }

  lemma UpdateKeepsRepaired(c: Config, s: State, who: nat)
    requires c.Sound() && RepairedInv(c, s) && Next(c, s, Update(who), true).To?
    ensures RepairedInv(c, Next(c, s, Update(who), true).next)
  {
    var s' := Next(c, s, Update(who), true).next;
    assert forall x :: x != who ==> s'.At(x) == s.At(x);
    if Matches(s.row, s.At(who), true) {
      assert Expired(c, s.row, s.now);
      assert s.row.created !in s.taken;
    }
  }

  lemma StepKeepsRepaired(c: Config, s: State, e: Event)
    requires c.Sound() && RepairedInv(c, s) && Next(c, s, e, true).To?
    ensures RepairedInv(c, Next(c, s, e, true).next)
  {
    var s' := Next(c, s, e, true).next;
    match e {
      case Insert(who) =>
        assert forall x :: x != who ==> s'.At(x) == s.At(x);
      case Select(who) =>
        assert forall x :: x != who ==> s'.At(x) == s.At(x);
      case Update(who) => UpdateKeepsRepaired(c, s, who);
      case Finish(who) =>
        assert Holds(c, s, who);
        assert forall x :: x != who ==> s'.At(x) == s.At(x);
      case Release(who) =>
        assert Holds(c, s, who);
        assert forall x :: x != who ==> s'.At(x) == s.At(x);
      case Purge =>
        assert forall x :: s'.At(x) == s.At(x);
      case Tick(_) =>
        assert forall x :: s'.At(x) == s.At(x);
    }
  }

  lemma {:induction false} RepairedRuns(c: Config, es: seq<Event>)
    requires c.Sound() && After(c, es, true).To?
    ensures RepairedInv(c, After(c, es, true).next)
  {
    if |es| > 0 {
      RepairedRuns(c, es[..|es| - 1]);
      StepKeepsRepaired(c, After(c, es[..|es| - 1], true).next, es[|es| - 1]);
    }
  }

  /** Comparing `created_at` as well gives one winner per incarnation of the row,
      and so at most one living holder, statement by statement. */
  lemma RepairedGuardAdmitsOneHolder(c: Config, es: seq<Event>, who: nat, who': nat)
    requires c.Sound() && After(c, es, true).To?
    ensures var s := After(c, es, true).next;
            && (forall at :: at in s.taken ==> s.taken[at] == 1)
            && (Holds(c, s, who) && Holds(c, s, who') ==> who == who')
  {
    RepairedRuns(c, es);
  }
}
