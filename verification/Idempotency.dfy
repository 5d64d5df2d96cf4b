/** The idempotency store: its table, its four operations as a class over that
    table, and what they promise over whole histories of many clients, with each
    `reserve` taken as one atomic step. */
module Idempotency {

  datatype Key = Key(scope: string, idemKey: string)

  datatype Response = Response(status: int, body: string)

  datatype RowStatus = InProgress | Complete(response: Response)

  /** One row. `owner` is the request that inserted it or took it over; the table
      itself has no such column, so nothing below branches on it. */
  datatype Row = Row(hash: string, status: RowStatus, created: int, owner: nat)

  type Table = map<Key, Row>

  datatype Verdict = Reserved | Replay(response: Response) | Wait | BodyMismatch

  datatype Config = Config(replayTtl: int, inProgressTtl: int, orphanTtl: int) {
    /** The janitor is slower than the take-over window. */
    predicate Sound() { 0 <= inProgressTtl <= orphanTtl && 0 <= replayTtl }
  }

  /** Nobody can act on this row again: its replay promise or its take-over
      window has passed. */
  predicate Dead(c: Config, row: Row, now: int) {
    now - row.created > if row.status.InProgress? then c.inProgressTtl else c.replayTtl
  }

  // ── the operations, as functions of the table ──

  function ReserveVerdict(c: Config, t: Table, k: Key, hash: string, now: int): Verdict {
    if k !in t then Reserved
    else if t[k].hash != hash then BodyMismatch
    else if Dead(c, t[k], now) then Reserved
    else match t[k].status
         case InProgress => Wait
         case Complete(response) => Replay(response)
  }

  function ReserveTable(c: Config, t: Table, owner: nat, k: Key, hash: string, now: int): Table {
    if ReserveVerdict(c, t, k, hash, now).Reserved? then t[k := Row(hash, InProgress, now, owner)] else t
  }

  function CompleteTable(t: Table, k: Key, response: Response): Table {
    if k in t then t[k := t[k].(status := Complete(response))] else t
  }

  predicate Purged(c: Config, row: Row, now: int) {
    now - row.created > if row.status.InProgress? then c.orphanTtl else c.replayTtl
  }

  function PurgeTable(c: Config, t: Table, now: int): Table {
    map k | k in t && !Purged(c, t[k], now) :: t[k]
  }

  class IdempotencyStore {
    const config: Config
    var table: Table

    constructor (config: Config)
      ensures this.config == config && table == map[]
    {
      this.config, table := config, map[];
    }

    method Reserve(owner: nat, k: Key, hash: string, now: int) returns (v: Verdict)
      modifies this
      ensures v == ReserveVerdict(config, old(table), k, hash, now)
      ensures table == ReserveTable(config, old(table), owner, k, hash, now)
    {
      if k !in table {
        table := table[k := Row(hash, InProgress, now, owner)];
        return Reserved;
      }
      var row := table[k];
      if row.hash != hash {
        return BodyMismatch;
      }
      var age := now - row.created;
      if row.status.Complete? {
        if age > config.replayTtl {
          v := TakeOver(owner, k, hash, now, false);
          return;
        }
        return Replay(row.status.response);
      }
      if age > config.inProgressTtl {
        v := TakeOver(owner, k, hash, now, true);
        return;
      }
      v := Wait;
    }

    /** The guarded reset of an expired row. */
    method TakeOver(owner: nat, k: Key, hash: string, now: int, expectInProgress: bool) returns (v: Verdict)
      modifies this
      ensures var won := k in old(table) && old(table)[k].status.InProgress? == expectInProgress;
              && v == (if won then Reserved else Wait)
              && table == if won then old(table)[k := Row(hash, InProgress, now, owner)] else old(table)
    {
      if k in table && table[k].status.InProgress? == expectInProgress {
        table := table[k := Row(hash, InProgress, now, owner)];
        return Reserved;
      }
      v := Wait;
    }

    method CompleteKey(k: Key, response: Response)
      modifies this
      ensures table == CompleteTable(old(table), k, response)
    {
      if k in table {
        table := table[k := table[k].(status := Complete(response))];
      }
    }

    method Release(k: Key)
      modifies this
      ensures table == old(table) - {k}
    {
      table := table - {k};
    }

    method Purge(now: int) returns (gone: nat)
      modifies this
      ensures table == PurgeTable(config, old(table), now)
      ensures gone == |old(table)| - |table|
    {
      var kept := map k | k in table && !Purged(config, table[k], now) :: table[k];
      assert kept.Keys <= table.Keys;
      SubsetSize(kept.Keys, table.Keys);
      gone := |table| - |kept|;
      table := kept;
    }
  }

  lemma SubsetSize<T>(a: set<T>, b: set<T>)
    requires a <= b
    ensures |a| <= |b|
  {
    assert b == a + (b - a);
  }

  // ── histories ──

  /** Who holds a key: a request that was told Reserved and has not finished. */
  datatype Holder = Holder(id: nat, key: Key, since: int)

  datatype Op =
    | ReserveOp(id: nat, key: Key, hash: string)
    | CompleteOp(holder: Holder, response: Response)
    | ReleaseOp(holder: Holder)
    | PurgeOp

  datatype Event = Event(at: int, op: Op)

  datatype State = State(table: Table, open: set<Holder>, used: set<nat>)

  const EMPTY := State(map[], {}, {})

  function VerdictOf(c: Config, s: State, e: Event): Verdict
    requires e.op.ReserveOp?
  {
    ReserveVerdict(c, s.table, e.op.key, e.op.hash, e.at)
  }

  function Step(c: Config, s: State, e: Event): State {
    match e.op
    case ReserveOp(id, k, hash) =>
      State(ReserveTable(c, s.table, id, k, hash, e.at),
            if VerdictOf(c, s, e).Reserved? then s.open + {Holder(id, k, e.at)} else s.open,
            s.used + {id})
    case CompleteOp(h, response) => s.(table := CompleteTable(s.table, h.key, response), open := s.open - {h})
    case ReleaseOp(h) => s.(table := s.table - {h.key}, open := s.open - {h})
    case PurgeOp => s.(table := PurgeTable(c, s.table, e.at))
  }

  function After(c: Config, es: seq<Event>): State {
    if |es| == 0 then EMPTY else Step(c, After(c, es[..|es| - 1]), es[|es| - 1])
  }

  /** What is asked of the clients: request ids are fresh, and whoever completes
      or releases holds the key and does so within the take-over window. A holder
      may also crash and never finish. */
  predicate Proper(c: Config, s: State, e: Event) {
    match e.op
    case ReserveOp(id, _, _) => id !in s.used
    case CompleteOp(h, _) => h in s.open && e.at - h.since <= c.inProgressTtl
    case ReleaseOp(h) => h in s.open && e.at - h.since <= c.inProgressTtl
    case PurgeOp => true
  }

  /** Clocks do not run backwards and every event is proper. */
  predicate ProperHistory(c: Config, es: seq<Event>) {
    |es| > 0 ==>
      var before, e := es[..|es| - 1], es[|es| - 1];
      && ProperHistory(c, before)
      && (|before| > 0 ==> before[|before| - 1].at <= e.at)
      && Proper(c, After(c, before), e)
  }

  predicate Alive(c: Config, h: Holder, now: int) { now - h.since <= c.inProgressTtl }

  /** A living holder's row is still its own, still in progress. */
  ghost predicate HolderInv(c: Config, s: State, now: int) {
    && (forall h :: h in s.open ==> h.id in s.used && h.since <= now)
    && (forall h, h' :: h in s.open && h' in s.open && h.id == h'.id ==> h == h')
    && (forall k :: k in s.table ==> s.table[k].created <= now && s.table[k].owner in s.used)
    && (forall h :: h in s.open && Alive(c, h, now) ==>
          h.key in s.table && s.table[h.key] == Row(s.table[h.key].hash, InProgress, h.since, h.id))
  }

  lemma {:induction false} StepKeepsHolders(c: Config, s: State, e: Event, now: int)
    requires c.Sound() && HolderInv(c, s, now) && now <= e.at && Proper(c, s, e)
    ensures HolderInv(c, Step(c, s, e), e.at)
  {
    match e.op {
      case ReserveOp(id, k, hash) =>
      case CompleteOp(h, response) =>
      case ReleaseOp(h) =>
      case PurgeOp =>
    }
  }

  function Last(es: seq<Event>): int { if |es| == 0 then 0 else es[|es| - 1].at }

  lemma {:induction false} HistoriesKeepHolders(c: Config, es: seq<Event>)
    requires c.Sound() && ProperHistory(c, es) && |es| > 0
    ensures HolderInv(c, After(c, es), Last(es))
  {
    var before, e := es[..|es| - 1], es[|es| - 1];
    if |before| == 0 {
      StepKeepsHolders(c, EMPTY, e, e.at);
    } else {
      HistoriesKeepHolders(c, before);
      StepKeepsHolders(c, After(c, before), e, Last(before));
    }
  }

  /** At most one living holder per key, in every history, janitor included. */
  lemma OneLivingHolder(c: Config, es: seq<Event>, h: Holder, h': Holder)
    requires c.Sound() && ProperHistory(c, es) && |es| > 0
    requires h in After(c, es).open && h' in After(c, es).open && h.key == h'.key
    requires Alive(c, h, Last(es)) && Alive(c, h', Last(es))
    ensures h == h'
  {
    HistoriesKeepHolders(c, es);
  }

  // ── replays ──

  ghost predicate Grants(c: Config, es: seq<Event>, i: nat, k: Key)
    requires i < |es|
  {
    es[i].op.ReserveOp? && es[i].op.key == k && VerdictOf(c, After(c, es[..i]), es[i]).Reserved?
  }

  predicate Completes(es: seq<Event>, i: nat, k: Key)
    requires i < |es|
  {
    es[i].op.CompleteOp? && es[i].op.holder.key == k
  }

  /** Event j is the last grant of k, made for the request and the body the row
      carries. */
  ghost predicate GrantedAt(c: Config, es: seq<Event>, k: Key, row: Row, j: nat) {
    && j < |es| && Grants(c, es, j, k)
    && es[j].op == ReserveOp(row.owner, k, row.hash)
    && (forall i: nat :: j < i < |es| ==> !Grants(c, es, i, k))
  }

  /** Event m is the only completion of k since j; it stored what the row holds. */
  ghost predicate AnsweredAt(es: seq<Event>, k: Key, row: Row, j: nat, m: nat) {
    && j < m < |es| && row.status.Complete?
    && Completes(es, m, k) && es[m].op.holder.id == row.owner && es[m].op.response == row.status.response
    && (forall i: nat :: j < i < |es| && Completes(es, i, k) ==> i == m)
  }

  ghost predicate Explained(c: Config, es: seq<Event>, k: Key, row: Row) {
    exists j: nat :: GrantedAt(c, es, k, row, j)
      && if row.status.InProgress? then (forall i: nat :: j < i < |es| ==> !Completes(es, i, k))
         else exists m: nat :: AnsweredAt(es, k, row, j, m)
  }

  /** What an event did is the same in the history it ended and in a longer one. */
  lemma SameInLonger(c: Config, es: seq<Event>, k: Key)
    requires |es| > 0
    ensures forall i: nat :: i < |es| - 1 ==> (Grants(c, es[..|es| - 1], i, k) <==> Grants(c, es, i, k))
    ensures forall i: nat :: i < |es| - 1 ==> (Completes(es[..|es| - 1], i, k) <==> Completes(es, i, k))
  {
    var before := es[..|es| - 1];
    forall i: nat | i < |before| ensures Grants(c, before, i, k) <==> Grants(c, es, i, k) {
      assert before[..i] == es[..i];
    }
  }

  /** Nothing happened to this key in the last event: the explanation stands. */
  lemma ExplanationStands(c: Config, es: seq<Event>, k: Key, row: Row)
    requires |es| > 0 && Explained(c, es[..|es| - 1], k, row)
    requires !Grants(c, es, |es| - 1, k) && !Completes(es, |es| - 1, k)
    ensures Explained(c, es, k, row)
  {
    var before := es[..|es| - 1];
    SameInLonger(c, es, k);
    var j: nat :| GrantedAt(c, before, k, row, j)
      && if row.status.InProgress? then (forall i: nat :: j < i < |before| ==> !Completes(before, i, k))
         else exists m: nat :: AnsweredAt(before, k, row, j, m);
    assert GrantedAt(c, es, k, row, j);
    if row.status.Complete? {
      var m: nat :| AnsweredAt(before, k, row, j, m);
      assert AnsweredAt(es, k, row, j, m);
    }
  }

  lemma GrantExplains(c: Config, es: seq<Event>, k: Key)
    requires |es| > 0 && Grants(c, es, |es| - 1, k)
    ensures k in After(c, es).table && Explained(c, es, k, After(c, es).table[k])
  {
    assert GrantedAt(c, es, k, After(c, es).table[k], |es| - 1);
  }

  lemma CompletionExplains(c: Config, es: seq<Event>, k: Key, row: Row)
    requires |es| > 0 && Completes(es, |es| - 1, k) && row.status.InProgress?
    requires es[|es| - 1].op.holder.id == row.owner
    requires Explained(c, es[..|es| - 1], k, row)
    ensures Explained(c, es, k, row.(status := Complete(es[|es| - 1].op.response)))
  {
    var before := es[..|es| - 1];
    var done := row.(status := Complete(es[|es| - 1].op.response));
    SameInLonger(c, es, k);
    var j: nat :| GrantedAt(c, before, k, row, j) && forall i: nat :: j < i < |before| ==> !Completes(before, i, k);
    assert GrantedAt(c, es, k, done, j);
    assert AnsweredAt(es, k, done, j, |es| - 1);
  }

  /** Every row is explained by the history that wrote it. */
  lemma {:induction false} RowsAreExplained(c: Config, es: seq<Event>, k: Key)
    requires c.Sound() && ProperHistory(c, es) && k in After(c, es).table
    ensures Explained(c, es, k, After(c, es).table[k])
  {
    var before, e := es[..|es| - 1], es[|es| - 1];
    if Grants(c, es, |es| - 1, k) {
      GrantExplains(c, es, k);
    } else {
      assert k in After(c, before).table;
      RowsAreExplained(c, before, k);
      var row := After(c, before).table[k];
      if Completes(es, |es| - 1, k) {
        HistoriesKeepHolders(c, before);
        assert StillAlive(c, es);
        CompletionExplains(c, es, k, row);
      } else {
        ExplanationStands(c, es, k, row);
      }
    }
  }

  /** The holder that finishes now was alive at the event before. */
  ghost predicate StillAlive(c: Config, es: seq<Event>) {
    |es| > 1 && (es[|es| - 1].op.CompleteOp? ==> Alive(c, es[|es| - 1].op.holder, Last(es[..|es| - 1])))
  }

  /** A replay returns the one response that the last granted request stored, and
      that request had the same body. */
  lemma ReplaysReturnTheHoldersAnswer(c: Config, es: seq<Event>, n: nat)
    requires c.Sound() && n < |es| && ProperHistory(c, es[..n]) && es[n].op.ReserveOp?
    requires VerdictOf(c, After(c, es[..n]), es[n]).Replay?
    ensures exists j: nat, m: nat :: j < m < n
              && es[j].op.ReserveOp? && es[j].op.key == es[n].op.key && es[j].op.hash == es[n].op.hash
              && GrantedAt(c, es[..n], es[n].op.key, After(c, es[..n]).table[es[n].op.key], j)
              && AnsweredAt(es[..n], es[n].op.key, After(c, es[..n]).table[es[n].op.key], j, m)
              && VerdictOf(c, After(c, es[..n]), es[n]) == Replay(es[m].op.response)
  {
    var h, k := es[..n], es[n].op.key;
    var row := After(c, h).table[k];
    RowsAreExplained(c, h, k);
    var j: nat :| GrantedAt(c, h, k, row, j) && exists m: nat :: AnsweredAt(h, k, row, j, m);
    var m: nat :| AnsweredAt(h, k, row, j, m);
  }

  // ── holders that come too late ──

  /** Event m is the last completion of k, and comes after j. */
  ghost predicate LastCompletion(es: seq<Event>, k: Key, j: nat, m: nat) {
    j < m < |es| && Completes(es, m, k) && forall i: nat :: m < i < |es| ==> !Completes(es, i, k)
  }

  /** What a row is in any history at all, however late the holders come: the body and
      owner of the last grant, and the response of the last completion since. */
  ghost predicate Written(c: Config, es: seq<Event>, k: Key, row: Row) {
    exists j: nat :: GrantedAt(c, es, k, row, j)
      && if row.status.InProgress? then (forall i: nat :: j < i < |es| ==> !Completes(es, i, k))
         else exists m: nat :: LastCompletion(es, k, j, m) && es[m].op.response == row.status.response
  }

  lemma GrantWrites(c: Config, es: seq<Event>, k: Key)
    requires |es| > 0 && Grants(c, es, |es| - 1, k)
    ensures k in After(c, es).table && Written(c, es, k, After(c, es).table[k])
  {
    assert GrantedAt(c, es, k, After(c, es).table[k], |es| - 1);
  }

  lemma WritingStands(c: Config, es: seq<Event>, k: Key, row: Row)
    requires |es| > 0 && Written(c, es[..|es| - 1], k, row)
    requires !Grants(c, es, |es| - 1, k) && !Completes(es, |es| - 1, k)
    ensures Written(c, es, k, row)
  {
    var before := es[..|es| - 1];
    SameInLonger(c, es, k);
    var j: nat :| GrantedAt(c, before, k, row, j)
      && if row.status.InProgress? then (forall i: nat :: j < i < |before| ==> !Completes(before, i, k))
         else exists m: nat :: LastCompletion(before, k, j, m) && before[m].op.response == row.status.response;
    assert GrantedAt(c, es, k, row, j);
    if row.status.Complete? {
      var m: nat :| LastCompletion(before, k, j, m) && before[m].op.response == row.status.response;
      assert LastCompletion(es, k, j, m);
    }
  }

  lemma CompletionWrites(c: Config, es: seq<Event>, k: Key, row: Row)
    requires |es| > 0 && Completes(es, |es| - 1, k) && Written(c, es[..|es| - 1], k, row)
    ensures Written(c, es, k, row.(status := Complete(es[|es| - 1].op.response)))
  {
    var before := es[..|es| - 1];
    var done := row.(status := Complete(es[|es| - 1].op.response));
    SameInLonger(c, es, k);
    var j: nat :| GrantedAt(c, before, k, row, j);
    assert GrantedAt(c, es, k, done, j);
    assert LastCompletion(es, k, j, |es| - 1);
  }

  lemma {:induction false} RowsAreWritten(c: Config, es: seq<Event>, k: Key)
    requires k in After(c, es).table
    ensures Written(c, es, k, After(c, es).table[k])
  {
    var before := es[..|es| - 1];
    if Grants(c, es, |es| - 1, k) {
      GrantWrites(c, es, k);
    } else {
      assert k in After(c, before).table;
      RowsAreWritten(c, before, k);
      if Completes(es, |es| - 1, k) {
        CompletionWrites(c, es, k, After(c, before).table[k]);
      } else {
        WritingStands(c, es, k, After(c, before).table[k]);
      }
    }
  }

  /** In any history at all, a replay returns what the last completion since the last
      grant stored. So it returns another request's answer exactly when that completion
      was not made by the request granted last. */
  lemma ReplaysReturnTheLastCompletion(c: Config, es: seq<Event>, n: nat) returns (j: nat, m: nat)
    requires n < |es| && es[n].op.ReserveOp? && VerdictOf(c, After(c, es[..n]), es[n]).Replay?
    ensures var k := es[n].op.key;
            && j < m < n && Grants(c, es[..n], j, k) && (forall i: nat :: j < i < n ==> !Grants(c, es[..n], i, k))
            && LastCompletion(es[..n], k, j, m)
            && es[j].op.ReserveOp? && es[j].op.hash == es[n].op.hash && es[j].op.id == After(c, es[..n]).table[k].owner
            && es[m].op.CompleteOp? && VerdictOf(c, After(c, es[..n]), es[n]) == Replay(es[m].op.response)
  {
    var h, k := es[..n], es[n].op.key;
    var row := After(c, h).table[k];
    RowsAreWritten(c, h, k);
    j :| GrantedAt(c, h, k, row, j)
      && exists m: nat :: LastCompletion(h, k, j, m) && h[m].op.response == row.status.response;
    m :| LastCompletion(h, k, j, m) && h[m].op.response == row.status.response;
  }

  /** Such a history: a holder outlives its window, is taken over, and completes; a
      third request is then told the first one's answer, although the second was
      granted last and has not answered. */
  lemma LateHolderAnswersForItsSuccessor(c: Config, k: Key, hash: string, r: Response) returns (es: seq<Event>)
    requires c.Sound()
    ensures |es| == 4 && es[0].op == ReserveOp(0, k, hash) && es[1].op == ReserveOp(1, k, hash)
    ensures VerdictOf(c, After(c, es[..0]), es[0]).Reserved? && VerdictOf(c, After(c, es[..1]), es[1]).Reserved?
    ensures es[2].op.CompleteOp? && es[2].op.holder.id == 0 && es[2].op.holder in After(c, es[..2]).open
    ensures es[3].op.ReserveOp? && VerdictOf(c, After(c, es[..3]), es[3]) == Replay(r)
  {
    var late := c.inProgressTtl + 1;
    var a, b := Event(0, ReserveOp(0, k, hash)), Event(late, ReserveOp(1, k, hash));
    var d, e := Event(late, CompleteOp(Holder(0, k, 0), r)), Event(late, ReserveOp(2, k, hash));
    es := [a, b, d, e];
    assert es[..0] == [] && es[..1] == [] + [a] && es[..2] == [] + [a] + [b] && es[..3] == [] + [a] + [b] + [d];
    AfterSnoc(c, [], a);
    AfterSnoc(c, [] + [a], b);
    AfterSnoc(c, [] + [a] + [b], d);
  }

  // ── what is due to a request ──

  /** The last grant of a key, and nothing since that frees it: no release, and no
      janitor pass that comes after the row's time is up. */
  ghost predicate Stands(c: Config, es: seq<Event>, k: Key, j: nat) {
    && j < |es| && Grants(c, es, j, k)
    && forall x: nat :: j < x < |es| ==> LeavesAlone(c, es, k, j, x)
  }

  ghost predicate LeavesAlone(c: Config, es: seq<Event>, k: Key, j: nat, x: nat)
    requires j < x < |es|
  {
    && !Grants(c, es, x, k)
    && (es[x].op.ReleaseOp? ==> es[x].op.holder.key != k)
    && (es[x].op.PurgeOp? ==> !TimeIsUp(c, es, k, j, x))
  }

  ghost predicate AnsweredBetween(es: seq<Event>, k: Key, j: nat, x: nat)
    requires x <= |es|
  {
    exists i: nat :: j < i < x && Completes(es, i, k)
  }

  /** Counted from the grant: a day or whatever the replay window is for an answered
      request, the orphan window for an unanswered one. */
  ghost predicate TimeIsUp(c: Config, es: seq<Event>, k: Key, j: nat, x: nat)
    requires j < x < |es|
  {
    es[x].at - es[j].at > if AnsweredBetween(es, k, j, x) then c.replayTtl else c.orphanTtl
  }

  lemma StandsBefore(c: Config, es: seq<Event>, k: Key, j: nat)
    requires j < |es| - 1 && Stands(c, es, k, j)
    ensures Stands(c, es[..|es| - 1], k, j)
  {
    var before := es[..|es| - 1];
    SameInLonger(c, es, k);
    forall x: nat | j < x < |before| ensures LeavesAlone(c, before, k, j, x) {
      assert LeavesAlone(c, es, k, j, x);
      AnsweredEarlier(es, k, j, x);
    }
  }

  lemma AnsweredEarlier(es: seq<Event>, k: Key, j: nat, x: nat)
    requires x < |es|
    ensures AnsweredBetween(es[..|es| - 1], k, j, x) <==> AnsweredBetween(es, k, j, x)
  {
    if AnsweredBetween(es, k, j, x) {
      var i: nat :| j < i < x && Completes(es, i, k);
      assert Completes(es[..|es| - 1], i, k);
    }
    if AnsweredBetween(es[..|es| - 1], k, j, x) {
      var i: nat :| j < i < x && Completes(es[..|es| - 1], i, k);
      assert Completes(es, i, k);
    }
  }

  /** The row of a grant that stands: its body and its time, unanswered or with the last
      response stored since. */
  ghost predicate RowOf(es: seq<Event>, k: Key, j: nat, row: Row)
    requires j < |es| && es[j].op.ReserveOp?
  {
    && row.hash == es[j].op.hash && row.created == es[j].at
    && (row.status.InProgress? <==> !AnsweredBetween(es, k, j, |es|))
    && (forall m: nat :: LastCompletion(es, k, j, m) ==> row.status == Complete(es[m].op.response))
  }

  lemma {:induction false} GrantsStand(c: Config, es: seq<Event>, k: Key, j: nat)
    requires Stands(c, es, k, j)
    ensures k in After(c, es).table && RowOf(es, k, j, After(c, es).table[k])
  {
    if j < |es| - 1 {
      var before, x := es[..|es| - 1], |es| - 1;
      StandsBefore(c, es, k, j);
      GrantsStand(c, before, k, j);
      AnsweredEarlier(es, k, j, x);
      assert LeavesAlone(c, es, k, j, x);
      assert before == es[..x];
      RowGoesOn(c, es, k, j, After(c, before).table[k]);
    }
  }

  lemma RowGoesOn(c: Config, es: seq<Event>, k: Key, j: nat, row: Row)
    requires j < |es| - 1 && es[j].op.ReserveOp? && RowOf(es[..|es| - 1], k, j, row)
    ensures RowOf(es, k, j, if Completes(es, |es| - 1, k) then row.(status := Complete(es[|es| - 1].op.response)) else row)
  {
    var before, x := es[..|es| - 1], |es| - 1;
    AnsweredEarlier(es, k, j, x);
    if Completes(es, x, k) {
      assert AnsweredBetween(es, k, j, |es|);
    } else {
      assert AnsweredBetween(es, k, j, |es|) <==> AnsweredBetween(es, k, j, x);
      forall m: nat | LastCompletion(es, k, j, m) ensures LastCompletion(before, k, j, m) {
        assert Completes(before, m, k);
        assert forall i: nat :: m < i < |before| ==> (Completes(before, i, k) <==> Completes(es, i, k));
      }
    }
  }

  /** While the grant stands unanswered, the same body waits for the take-over window and
      is granted after it; another body is refused. */
  lemma UnansweredIsWaitedFor(c: Config, es: seq<Event>, j: nat, e: Event)
    requires e.op.ReserveOp? && Stands(c, es, e.op.key, j) && !AnsweredBetween(es, e.op.key, j, |es|)
    ensures var v := VerdictOf(c, After(c, es), e);
            && (v == BodyMismatch <==> e.op.hash != es[j].op.hash)
            && (v == Wait <==> e.op.hash == es[j].op.hash && e.at - es[j].at <= c.inProgressTtl)
            && (v == Reserved <==> e.op.hash == es[j].op.hash && e.at - es[j].at > c.inProgressTtl)
  {
    GrantsStand(c, es, e.op.key, j);
  }

  /** Once it is answered, the same body is told exactly the last response stored, for the
      replay window counted from the grant, and is granted after it; another body is
      refused. */
  lemma AnsweredIsReplayed(c: Config, es: seq<Event>, j: nat, m: nat, e: Event)
    requires e.op.ReserveOp? && Stands(c, es, e.op.key, j) && LastCompletion(es, e.op.key, j, m)
    ensures var v := VerdictOf(c, After(c, es), e);
            && (v == BodyMismatch <==> e.op.hash != es[j].op.hash)
            && (v == Replay(es[m].op.response) <==> e.op.hash == es[j].op.hash && e.at - es[j].at <= c.replayTtl)
            && (v == Reserved <==> e.op.hash == es[j].op.hash && e.at - es[j].at > c.replayTtl)
  {
    GrantsStand(c, es, e.op.key, j);
    assert Completes(es, m, e.op.key);
  }

  /** Nothing frees the key without a trace: it was never granted, or since its last grant
      it was released or met by the janitor with its time up. Then any body is granted. */
  ghost predicate Freed(c: Config, es: seq<Event>, k: Key, x: nat) {
    && x < |es| && UngrantedAfter(c, es, k, x)
    && (|| (es[x].op.ReleaseOp? && es[x].op.holder.key == k)
        || (es[x].op.PurgeOp? && exists j: nat :: j < x && Stands(c, es[..x], k, j) && TimeIsUp(c, es, k, j, x)))
  }

  lemma {:induction false} FreedIsGranted(c: Config, es: seq<Event>, x: nat, e: Event)
    requires e.op.ReserveOp? && Freed(c, es, e.op.key, x)
    ensures VerdictOf(c, After(c, es), e) == Reserved
  {
    FreedIsGone(c, es, e.op.key, x);
  }

  ghost predicate UngrantedAfter(c: Config, es: seq<Event>, k: Key, x: int) {
    forall i: nat :: x < i < |es| ==> !Grants(c, es, i, k)
  }

  lemma UngrantedBefore(c: Config, es: seq<Event>, k: Key, x: int)
    requires |es| > 0 && UngrantedAfter(c, es, k, x)
    ensures UngrantedAfter(c, es[..|es| - 1], k, x)
  {
    SameInLonger(c, es, k);
    var before := es[..|es| - 1];
    forall i: nat | x < i < |before| ensures !Grants(c, before, i, k) {
      assert !Grants(c, es, i, k);
    }
  }

  lemma {:induction false} FreedIsGone(c: Config, es: seq<Event>, k: Key, x: nat)
    requires Freed(c, es, k, x)
    ensures k !in After(c, es).table
  {
    if x < |es| - 1 {
      var before := es[..|es| - 1];
      UngrantedBefore(c, es, k, x);
      assert before[..x] == es[..x];
      if es[x].op.PurgeOp? {
        var j: nat :| j < x && Stands(c, es[..x], k, j) && TimeIsUp(c, es, k, j, x);
        AnsweredEarlier(es, k, j, x);
        assert TimeIsUp(c, before, k, j, x);
      }
      FreedIsGone(c, before, k, x);
      assert !Grants(c, es, |es| - 1, k) && before == es[..|es| - 1];
    } else if es[x].op.PurgeOp? {
      var j: nat :| j < x && Stands(c, es[..x], k, j) && TimeIsUp(c, es, k, j, x);
      AnsweredEarlier(es, k, j, x);
      GrantsStand(c, es[..x], k, j);
    }
  }

  lemma {:induction false} NeverGrantedIsGone(c: Config, es: seq<Event>, k: Key)
    requires UngrantedAfter(c, es, k, -1)
    ensures k !in After(c, es).table
  {
    if |es| > 0 {
      UngrantedBefore(c, es, k, -1);
      NeverGrantedIsGone(c, es[..|es| - 1], k);
      assert !Grants(c, es, |es| - 1, k);
    }
  }

  /** A key that was never granted is granted to whoever asks. */
  lemma {:induction false} FirstIsGranted(c: Config, es: seq<Event>, e: Event)
    requires e.op.ReserveOp? && UngrantedAfter(c, es, e.op.key, -1)
    ensures VerdictOf(c, After(c, es), e) == Reserved
  {
    NeverGrantedIsGone(c, es, e.op.key);
  }

  // ── the janitor is invisible ──

  function WithoutPurges(es: seq<Event>): seq<Event> {
    if |es| == 0 then []
    else
      var before := WithoutPurges(es[..|es| - 1]);
      if es[|es| - 1].op.PurgeOp? then before else before + [es[|es| - 1]]
  }

  /** The verdicts a history hands out, in order. */
  function Verdicts(c: Config, es: seq<Event>): seq<Verdict> {
    if |es| == 0 then []
    else
      var before, e := es[..|es| - 1], es[|es| - 1];
      Verdicts(c, before) + if e.op.ReserveOp? then [VerdictOf(c, After(c, before), e)] else []
  }

  ghost predicate OneBodyPerKey(es: seq<Event>, body: Key -> string) {
    forall i :: 0 <= i < |es| && es[i].op.ReserveOp? ==> es[i].op.hash == body(es[i].op.key)
  }

  /** A dead row and an absent one are the same thing. */
  ghost predicate SameForClients(c: Config, purged: State, full: State, now: int) {
    && purged.open == full.open && purged.used == full.used
    && (forall k :: k in purged.table ==> k in full.table && full.table[k] == purged.table[k])
    && (forall k :: k in full.table && k !in purged.table ==> Dead(c, full.table[k], now))
  }

  /** A request meets, under another body, a row that only the janitor has removed. */
  predicate Meets(purged: State, full: State, e: Event) {
    e.op.ReserveOp? && e.op.key in full.table && e.op.key !in purged.table && full.table[e.op.key].hash != e.op.hash
  }

  lemma StepStaysTheSame(c: Config, purged: State, full: State, e: Event, now: int)
    requires c.Sound() && SameForClients(c, purged, full, now) && now <= e.at
    requires HolderInv(c, purged, now) && Proper(c, purged, e) && !e.op.PurgeOp? && !Meets(purged, full, e)
    ensures SameForClients(c, Step(c, purged, e), Step(c, full, e), e.at)
    ensures e.op.ReserveOp? ==> VerdictOf(c, purged, e) == VerdictOf(c, full, e)
  {
    match e.op {
      case ReserveOp(id, k, hash) =>
      case CompleteOp(h, response) =>
      case ReleaseOp(h) =>
    }
  }

  lemma PurgeStaysTheSame(c: Config, purged: State, full: State, at: int, now: int)
    requires c.Sound() && SameForClients(c, purged, full, now) && now <= at
    ensures SameForClients(c, Step(c, purged, Event(at, PurgeOp)), full, at)
  {
  }

  /** The request at n meets a purged row under another body. */
  ghost predicate Reveals(c: Config, es: seq<Event>, n: nat) {
    n < |es| && Meets(After(c, es[..n]), After(c, WithoutPurges(es[..n])), es[n])
  }

  ghost predicate NothingReveals(c: Config, es: seq<Event>) { forall n: nat :: !Reveals(c, es, n) }

  lemma RevealsEarlier(c: Config, es: seq<Event>, n: nat)
    requires |es| > 0 && n < |es| - 1
    ensures Reveals(c, es[..|es| - 1], n) <==> Reveals(c, es, n)
  {
    assert es[..|es| - 1][..n] == es[..n];
  }

  lemma {:induction false} HistoriesStayTheSame(c: Config, es: seq<Event>)
    requires c.Sound() && ProperHistory(c, es) && NothingReveals(c, es) && |es| > 0
    ensures SameForClients(c, After(c, es), After(c, WithoutPurges(es)), Last(es))
    ensures Verdicts(c, es) == Verdicts(c, WithoutPurges(es))
  {
    var before, e := es[..|es| - 1], es[|es| - 1];
    var stripped := WithoutPurges(before);
    var now := if |before| == 0 then e.at else Last(before);
    assert !Reveals(c, es, |es| - 1);
    if |before| > 0 {
      forall n: nat ensures !Reveals(c, before, n) {
        if n < |before| {
          RevealsEarlier(c, es, n);
        }
      }
      HistoriesStayTheSame(c, before);
      HistoriesKeepHolders(c, before);
    }
    if e.op.PurgeOp? {
      PurgeStaysTheSame(c, After(c, before), After(c, stripped), e.at, now);
    } else {
      StepStaysTheSame(c, After(c, before), After(c, stripped), e, now);
      assert (stripped + [e])[..|stripped|] == stripped;
    }
  }

  /** Verdicts of a longer history start with those of a shorter one. */
  lemma {:induction false} VerdictsGrow(c: Config, es: seq<Event>, n: nat)
    requires n <= |es|
    ensures Verdicts(c, es[..n]) <= Verdicts(c, es) && WithoutPurges(es[..n]) <= WithoutPurges(es)
    ensures ProperHistory(c, es) ==> ProperHistory(c, es[..n])
  {
    if n < |es| {
      assert es[..|es| - 1][..n] == es[..n];
      VerdictsGrow(c, es[..|es| - 1], n);
    } else {
      assert es[..n] == es;
    }
  }

  /** Until the first such request the verdicts agree. */
  lemma SameUntilFirst(c: Config, es: seq<Event>, n: nat)
    requires c.Sound() && n <= |es| && ProperHistory(c, es[..n]) && forall m: nat :: m < n ==> !Reveals(c, es, m)
    ensures Verdicts(c, es[..n]) == Verdicts(c, WithoutPurges(es[..n]))
  {
    var before := es[..n];
    if n > 0 {
      forall m: nat ensures !Reveals(c, before, m) {
        if m < n {
          assert before[..m] == es[..m];
          assert !Reveals(c, es, m);
        }
      }
      HistoriesStayTheSame(c, before);
    }
  }

  /** There they part. */
  lemma PartAtFirst(c: Config, before: seq<Event>, e: Event)
    requires Meets(After(c, before), After(c, WithoutPurges(before)), e)
    requires Verdicts(c, before) == Verdicts(c, WithoutPurges(before))
    ensures var v, w := Verdicts(c, before + [e]), Verdicts(c, WithoutPurges(before + [e]));
            |v| == |w| && v != w
  {
    var stripped := WithoutPurges(before);
    AfterSnoc(c, before, e);
    AfterSnoc(c, stripped, e);
    var same := Verdicts(c, before);
    assert (same + [Reserved])[|same|] != (same + [BodyMismatch])[|same|];
  }

  lemma PrefixesPart<T>(v: seq<T>, w: seq<T>, longV: seq<T>, longW: seq<T>)
    requires v <= longV && w <= longW && |v| == |w| && v != w
    ensures longV != longW
  {
  }

  /** Verdicts once parted stay apart. */
  lemma PartForGood(c: Config, es: seq<Event>, n: nat)
    requires n <= |es|
    requires var v, w := Verdicts(c, es[..n]), Verdicts(c, WithoutPurges(es[..n])); |v| == |w| && v != w
    ensures Verdicts(c, es) != Verdicts(c, WithoutPurges(es))
  {
    var shorter, whole := WithoutPurges(es[..n]), WithoutPurges(es);
    VerdictsGrow(c, es, n);
    assert shorter == whole[..|shorter|];
    VerdictsGrow(c, whole, |shorter|);
    PrefixesPart(Verdicts(c, es[..n]), Verdicts(c, shorter), Verdicts(c, es), Verdicts(c, whole));
  }

  /** The first request that meets a purged row gets another verdict than it would
      have got without the janitor. */
  lemma RevealingShows(c: Config, es: seq<Event>, n: nat)
    requires c.Sound() && ProperHistory(c, es) && Reveals(c, es, n)
    requires forall m: nat :: m < n ==> !Reveals(c, es, m)
    ensures Verdicts(c, es) != Verdicts(c, WithoutPurges(es))
  {
    VerdictsGrow(c, es, n);
    SameUntilFirst(c, es, n);
    PartAtFirst(c, es[..n], es[n]);
    assert es[..n + 1] == es[..n] + [es[n]];
    PartForGood(c, es, n + 1);
  }

  /** Janitor passes anywhere in a history change some verdict iff some request meets a
      purged row under another body than the row's. */
  lemma PurgingIsInvisibleIff(c: Config, es: seq<Event>)
    requires c.Sound() && ProperHistory(c, es)
    ensures Verdicts(c, es) == Verdicts(c, WithoutPurges(es)) <==> NothingReveals(c, es)
  {
    if NothingReveals(c, es) {
      if |es| > 0 {
        HistoriesStayTheSame(c, es);
      }
    } else {
      var n: nat :| Reveals(c, es, n);
      var first := FirstReveal(c, es, n);
      RevealingShows(c, es, first);
    }
  }

  lemma {:induction false} FirstReveal(c: Config, es: seq<Event>, n: nat) returns (first: nat)
    requires Reveals(c, es, n)
    ensures Reveals(c, es, first) && forall m: nat :: m < first ==> !Reveals(c, es, m)
    decreases n
  {
    if m: nat :| m < n && Reveals(c, es, m) {
      first := FirstReveal(c, es, m);
    } else {
      first := n;
    }
  }

  lemma {:induction false} RowsKeepTheBody(c: Config, es: seq<Event>, body: Key -> string, k: Key)
    requires OneBodyPerKey(es, body) && k in After(c, es).table
    ensures After(c, es).table[k].hash == body(k)
  {
    var before := es[..|es| - 1];
    if k in After(c, before).table {
      RowsKeepTheBody(c, before, body, k);
    }
  }

  lemma {:induction false} StrippingKeepsTheBody(es: seq<Event>, body: Key -> string)
    requires OneBodyPerKey(es, body)
    ensures OneBodyPerKey(WithoutPurges(es), body)
  {
    if |es| > 0 {
      StrippingKeepsTheBody(es[..|es| - 1], body);
    }
  }

  /** So with one body per key the janitor is invisible. */
  lemma PurgingIsInvisible(c: Config, es: seq<Event>, body: Key -> string)
    requires c.Sound() && ProperHistory(c, es) && OneBodyPerKey(es, body)
    ensures Verdicts(c, es) == Verdicts(c, WithoutPurges(es))
  {
    forall n: nat ensures !Reveals(c, es, n) {
      if Reveals(c, es, n) {
        StrippingKeepsTheBody(es[..n], body);
        RowsKeepTheBody(c, WithoutPurges(es[..n]), body, es[n].op.key);
      }
    }
    PurgingIsInvisibleIff(c, es);
  }

  lemma AfterSnoc(c: Config, es: seq<Event>, e: Event)
    ensures After(c, es + [e]) == Step(c, After(c, es), e)
    ensures WithoutPurges(es + [e]) == if e.op.PurgeOp? then WithoutPurges(es) else WithoutPurges(es) + [e]
    ensures Verdicts(c, es + [e]) ==
            Verdicts(c, es) + if e.op.ReserveOp? then [VerdictOf(c, After(c, es), e)] else []
    ensures ProperHistory(c, es + [e]) <==>
            ProperHistory(c, es) && (|es| > 0 ==> es[|es| - 1].at <= e.at) && Proper(c, After(c, es), e)
  {
    assert (es + [e])[..|es|] == es;
  }

  /** A request that is granted and answers at once. */
  lemma Answered(c: Config, k: Key, hash: string, r: Response) returns (es: seq<Event>)
    requires c.Sound()
    ensures ProperHistory(c, es) && |es| == 2 && es[1].at == 0 && WithoutPurges(es) == es
    ensures After(c, es) == State(map[k := Row(hash, Complete(r), 0, 0)], {}, {0})
  {
    var a, b := Event(0, ReserveOp(0, k, hash)), Event(0, CompleteOp(Holder(0, k, 0), r));
    AfterSnoc(c, [], a);
    assert After(c, [] + [a]) == State(map[k := Row(hash, InProgress, 0, 0)], {Holder(0, k, 0)}, {0});
    AfterSnoc(c, [] + [a], b);
    es := [] + [a] + [b];
  }

  /** One body per key is needed: a key reused for a second body is refused while
      the dead row of the first is there, and granted once it was purged. */
  lemma SecondBodyRevealsPurging(c: Config, k: Key, first: string, second: string, r: Response) returns (es: seq<Event>)
    requires c.Sound() && first != second
    ensures ProperHistory(c, es) && Verdicts(c, es) != Verdicts(c, WithoutPurges(es))
  {
    var late := c.replayTtl + 1;
    var p, d := Event(late, PurgeOp), Event(late, ReserveOp(1, k, second));
    var answered := Answered(c, k, first, r);
    AfterSnoc(c, answered, p);
    var purged := answered + [p];
    assert After(c, purged) == State(map[], {}, {0});
    AfterSnoc(c, purged, d);
    es := purged + [d];
    assert es[..3] == purged;
    assert Reveals(c, es, 3);
    PurgingIsInvisibleIff(c, es);
  }
}
