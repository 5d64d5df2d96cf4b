/** The event pipeline from staging to the fact table: one outbox poller, one topic
    partition, one consumer of the facts projector. Each stage may crash between
    any two of its effects and start over from what it had committed. */
module Pipeline {
  import opened Options
  import opened Replay
  import Facts

  type Order = string

  /** The n-th event staged for an order. The outbox keeps its rows in the order
      the poller reads them, (occurred_at, id). */
  datatype OutboxRow = OutboxRow(order: Order, n: nat, published: bool)

  datatype Record = Record(order: Order, n: nat)

  datatype State = State(
    staged: map<Order, seq<Facts.Event>>,
    outbox: seq<OutboxRow>,
    batch: seq<Record>,        // the rows the running poller pass selected
    sent: nat,                 // how many of them the broker has confirmed
    topic: seq<Record>,
    committed: nat,            // the consumer group's offset
    position: nat,             // how far the running consumer session has handled
    facts: Facts.Table,
    marked: map<Order, nat>,   // how many events of each order were ever marked published
    clean: nat)                // the records below were handled when they were last passed

  const EMPTY := State(map[], [], [], 0, [], 0, 0, map[], map[], 0)

  datatype Step =
    | Stage(order: Order, event: Facts.Event, at: nat)
    | PollSelect(limit: nat)
    | PollSend
    | PollMark
    | PollCrash
    | Handle
    | HandleRaises             // the transaction commits and the call raises all the same
    | GiveUp                   // parked after the last attempt, and passed over
    | Commit
    | ConsumerCrash

  function StagedOf(s: State, o: Order): seq<Facts.Event> { if o in s.staged then s.staged[o] else [] }

  function MarkedOf(s: State, o: Order): nat { if o in s.marked then s.marked[o] else 0 }

  function Unpublished(outbox: seq<OutboxRow>): seq<Record> {
    if |outbox| == 0 then []
    else
      var last := outbox[|outbox| - 1];
      Unpublished(outbox[..|outbox| - 1]) + if last.published then [] else [Record(last.order, last.n)]
  }

  function Selected(outbox: seq<OutboxRow>, limit: nat): seq<Record> {
    var rows := Unpublished(outbox);
    if limit < |rows| then rows[..limit] else rows
  }

  function Inserted(rows: seq<OutboxRow>, at: nat, row: OutboxRow): seq<OutboxRow>
    requires at <= |rows|
  {
    rows[..at] + [row] + rows[at..]
  }

  function MarkRows(outbox: seq<OutboxRow>, batch: seq<Record>): seq<OutboxRow> {
    seq(|outbox|, i requires 0 <= i < |outbox| =>
      if Record(outbox[i].order, outbox[i].n) in batch then outbox[i].(published := true) else outbox[i])
  }

  /** How many records of an order a sequence holds. */
  function Count(rs: seq<Record>, o: Order): nat {
    if |rs| == 0 then 0 else Count(rs[..|rs| - 1], o) + if rs[|rs| - 1].order == o then 1 else 0
  }

  function CountRows(outbox: seq<OutboxRow>, o: Order): nat {
    if |outbox| == 0 then 0
    else CountRows(outbox[..|outbox| - 1], o) + if outbox[|outbox| - 1].order == o then 1 else 0
  }

  /** A new row sorts anywhere among the others, which may already be published. */
  predicate Enabled(s: State, step: Step) {
    match step
    case Stage(o, e, at) => at <= |s.outbox| && (e.Lifecycle? ==> e.order == o)
    case PollSelect(_) => s.batch == []
    case PollSend => s.sent < |s.batch|
    case PollMark => s.batch != [] && s.sent == |s.batch|
    case PollCrash => true
    case Handle => s.position < |s.topic|
    case HandleRaises => s.position < |s.topic|
    case GiveUp => s.position < |s.topic|
    case Commit => true
    case ConsumerCrash => true
  }

  /** Staging that sorts an order's new row behind the order's other rows. */
  predicate InOrderStep(s: State, step: Step) {
    step.Stage? && Enabled(s, step) ==> forall i :: step.at <= i < |s.outbox| ==> s.outbox[i].order != step.order
  }

  function EventOf(s: State, r: Record): Facts.Event {
    if r.n < |StagedOf(s, r.order)| then StagedOf(s, r.order)[r.n] else Facts.Unknown
  }

  /** A step that is not enabled changes nothing. */
  function Next(s: State, step: Step): State {
    if !Enabled(s, step) then s else
    match step
    case Stage(o, e, at) =>
      var row := OutboxRow(o, |StagedOf(s, o)|, false);
      s.(staged := s.staged[o := StagedOf(s, o) + [e]], outbox := Inserted(s.outbox, at, row))
    case PollSelect(limit) =>
      s.(batch := Selected(s.outbox, limit), sent := 0)
    case PollSend => s.(topic := s.topic + [s.batch[s.sent]], sent := s.sent + 1)
    case PollMark =>
      s.(outbox := MarkRows(s.outbox, s.batch), batch := [], sent := 0,
         marked := map o | o in s.staged :: MarkedOf(s, o) + Count(s.batch, o))
    case PollCrash => s.(batch := [], sent := 0)
    case Handle =>
      s.(facts := Facts.Apply(s.facts, EventOf(s, s.topic[s.position])), position := s.position + 1,
         clean := if s.clean == s.position then s.clean + 1 else s.clean)
    case HandleRaises => s.(facts := Facts.Apply(s.facts, EventOf(s, s.topic[s.position])))
    case GiveUp => s.(position := s.position + 1)
    case Commit => s.(committed := s.position)
    case ConsumerCrash => s.(position := s.committed, clean := if s.clean < s.committed then s.clean else s.committed)
  }

  function From(s: State, steps: seq<Step>): State {
    if |steps| == 0 then s else Next(From(s, steps[..|steps| - 1]), steps[|steps| - 1])
  }

  function After(steps: seq<Step>): State { From(EMPTY, steps) }

  /** Everything staged was published and everything published was handled. */
  predicate Drained(s: State) {
    s.position == |s.topic| && forall i :: 0 <= i < |s.outbox| ==> s.outbox[i].published
  }

  // ── what one order sees ──

  function Own(e: Facts.Event): Columns { if e.Lifecycle? then e.columns else map[] }

  /** The columns of an order's staged events, in staging order. */
  function Source(es: seq<Facts.Event>): seq<Columns> {
    seq(|es|, i requires 0 <= i < |es| => Own(es[i]))
  }

  /** The columns the topic carries for an order, none where the record is not its own. */
  function Carried(topic: seq<Record>, o: Order, es: seq<Facts.Event>): seq<Columns> {
    seq(|topic|, i requires 0 <= i < |topic| =>
      if topic[i].order == o && topic[i].n < |es| then Own(es[topic[i].n]) else map[])
  }

  /** The event of this order the topic would carry next, were it in order. */
  function Upto(topic: seq<Record>, o: Order): nat {
    if |topic| == 0 then 0
    else if topic[|topic| - 1].order == o then topic[|topic| - 1].n + 1
    else Upto(topic[..|topic| - 1], o)
  }

  // ── the invariant, for one order and one column ──

  ghost predicate WellKeyed(staged: map<Order, seq<Facts.Event>>) {
    forall o, i :: o in staged && 0 <= i < |staged[o]| && staged[o][i].Lifecycle? ==> staged[o][i].order == o
  }

  /** The order's outbox rows are numbered, and published from the front. */
  ghost predicate NumberedAt(rows: seq<OutboxRow>, i: nat, o: Order, marked: nat)
    requires i < |rows|
  {
    rows[i].order == o ==> rows[i].n == CountRows(rows[..i], o) && (rows[i].published <==> rows[i].n < marked)
  }

  ghost predicate Numbered(rows: seq<OutboxRow>, o: Order, marked: nat) {
    forall i: nat {:trigger NumberedAt(rows, i, o, marked)} :: i < |rows| ==> NumberedAt(rows, i, o, marked)
  }

  /** The pass in flight continues the order exactly where it was marked. */
  ghost predicate ContinuesAt(rs: seq<Record>, k: nat, o: Order, marked: nat)
    requires k < |rs|
  {
    rs[k].order == o ==> rs[k].n == marked + Count(rs[..k], o)
  }

  ghost predicate Continues(rs: seq<Record>, o: Order, marked: nat) {
    forall k: nat {:trigger ContinuesAt(rs, k, o, marked)} :: k < |rs| ==> ContinuesAt(rs, k, o, marked)
  }

  ghost predicate PollerInv(s: State, o: Order) {
    && Numbered(s.outbox, o, MarkedOf(s, o))
    && CountRows(s.outbox, o) == |StagedOf(s, o)|
    && Continues(s.batch, o, MarkedOf(s, o))
    && MarkedOf(s, o) + Count(s.batch, o) <= |StagedOf(s, o)|
    && s.sent <= |s.batch|
  }

  /** The topic has never skipped an event of the order. */
  ghost predicate TopicInv(s: State, o: Order) {
    && s.sent <= |s.batch|
    && MarkedOf(s, o) + Count(s.batch[..s.sent], o) <= Upto(s.topic, o) <= |StagedOf(s, o)|
    && (forall i :: 0 <= i < |s.topic| && s.topic[i].order == o ==> s.topic[i].n < |StagedOf(s, o)|)
  }

  ghost predicate RowInv(s: State, o: Order, c: string) {
    var es := StagedOf(s, o);
    var carried := Carried(s.topic, o, es);
    && s.committed <= s.position <= |s.topic| && s.clean <= s.position
    && Behind(Source(es), Upto(s.topic, o), Merge(carried), c)
    && Behind(carried, s.clean, Facts.Get(s.facts, o), c)
  }

  ghost predicate Inv(s: State, o: Order, c: string) {
    WellKeyed(s.staged) && PollerInv(s, o) && TopicInv(s, o) && RowInv(s, o, c)
  }

  // ── counting ──

  lemma {:induction false} CountRowsSplits(a: seq<OutboxRow>, b: seq<OutboxRow>, o: Order)
    ensures CountRows(a + b, o) == CountRows(a, o) + CountRows(b, o)
  {
    if |b| == 0 {
      assert a + b == a;
    } else {
      assert (a + b)[..|a + b| - 1] == a + b[..|b| - 1];
      CountRowsSplits(a, b[..|b| - 1], o);
    }
  }

  lemma {:induction false} NoRowsToCount(rows: seq<OutboxRow>, o: Order)
    requires forall i :: 0 <= i < |rows| ==> rows[i].order != o
    ensures CountRows(rows, o) == 0
  {
    if |rows| > 0 {
      NoRowsToCount(rows[..|rows| - 1], o);
    }
  }

  lemma {:induction false} CountRowsAfterMark(rows: seq<OutboxRow>, batch: seq<Record>, o: Order)
    ensures CountRows(MarkRows(rows, batch), o) == CountRows(rows, o)
  {
    if |rows| > 0 {
      assert MarkRows(rows, batch)[..|rows| - 1] == MarkRows(rows[..|rows| - 1], batch);
      CountRowsAfterMark(rows[..|rows| - 1], batch, o);
    }
  }

  /** The last row of an order carries the highest number. */
  lemma {:induction false} LastRow(outbox: seq<OutboxRow>, o: Order) returns (i: nat)
    requires CountRows(outbox, o) > 0
    ensures i < |outbox| && outbox[i].order == o && CountRows(outbox[..i], o) == CountRows(outbox, o) - 1
  {
    if outbox[|outbox| - 1].order == o {
      i := |outbox| - 1;
    } else {
      i := LastRow(outbox[..|outbox| - 1], o);
      assert outbox[..|outbox| - 1][..i] == outbox[..i];
    }
  }

  lemma {:induction false} CountGrows(rs: seq<Record>, k: nat, o: Order)
    requires k <= |rs|
    ensures Count(rs[..k], o) <= Count(rs, o)
  {
    if k < |rs| {
      assert rs[..|rs| - 1][..k] == rs[..k];
      CountGrows(rs[..|rs| - 1], k, o);
    } else {
      assert rs[..k] == rs;
    }
  }

  lemma CountStep(rs: seq<Record>, k: nat, o: Order)
    requires k < |rs|
    ensures Count(rs[..k + 1], o) == Count(rs[..k], o) + if rs[k].order == o then 1 else 0
  {
    assert rs[..k + 1][..k] == rs[..k];
  }

  /** Every number below the count belongs to some record. */
  lemma {:induction false} CountReaches(rs: seq<Record>, o: Order, j: nat) returns (k: nat)
    requires j < Count(rs, o)
    ensures k < |rs| && rs[k].order == o && Count(rs[..k], o) == j
  {
    var before := rs[..|rs| - 1];
    if j < Count(before, o) {
      k := CountReaches(before, o, j);
      assert before[..k] == rs[..k];
    } else {
      k := |rs| - 1;
    }
  }

  // ── staging ──

  lemma InsertedRowCounts(rows: seq<OutboxRow>, at: nat, row: OutboxRow, o: Order)
    requires at <= |rows|
    ensures CountRows(Inserted(rows, at, row), o) == CountRows(rows, o) + if row.order == o then 1 else 0
  {
    var a, b := rows[..at], rows[at..];
    assert a + b == rows && [row][..0] == [];
    CountRowsSplits(a, b, o);
    CountRowsSplits(a + [row], b, o);
    CountRowsSplits(a, [row], o);
  }

  lemma NoneAfter(rows: seq<OutboxRow>, at: nat, o: Order)
    requires at <= |rows| && forall i :: at <= i < |rows| ==> rows[i].order != o
    ensures CountRows(rows[..at], o) == CountRows(rows, o)
  {
    NoRowsToCount(rows[at..], o);
    CountRowsSplits(rows[..at], rows[at..], o);
    assert rows[..at] + rows[at..] == rows;
  }

  lemma InsertedRowIsNumbered(rows: seq<OutboxRow>, at: nat, row: OutboxRow, o: Order, marked: nat)
    requires at <= |rows| && Numbered(rows, o, marked)
    requires row.order == o ==> row.n == CountRows(rows, o) && !row.published && marked <= row.n
    requires row.order == o ==> forall i :: at <= i < |rows| ==> rows[i].order != o
    ensures Numbered(Inserted(rows, at, row), o, marked)
  {
    var rows' := Inserted(rows, at, row);
    forall i: nat | i < |rows'| ensures NumberedAt(rows', i, o, marked) {
      if i < at {
        assert NumberedAt(rows, i, o, marked);
        assert rows'[..i] == rows[..i];
      } else if i == at {
        assert rows'[..i] == rows[..at];
        if row.order == o {
          NoneAfter(rows, at, o);
        }
      } else {
        assert NumberedAt(rows, i - 1, o, marked);
        assert rows'[i] == rows[i - 1] && rows'[..i] == Inserted(rows[..i - 1], at, row);
        InsertedRowCounts(rows[..i - 1], at, row, o);
      }
    }
  }

  lemma StagingGrowsTheSource(topic: seq<Record>, o: Order, es: seq<Facts.Event>, e: Facts.Event)
    requires forall i :: 0 <= i < |topic| && topic[i].order == o ==> topic[i].n < |es|
    ensures Carried(topic, o, es + [e]) == Carried(topic, o, es)
    ensures Source(es + [e]) == Source(es) + [Own(e)]
  {
  }

  lemma StageKeeps(s: State, order: Order, e: Facts.Event, at: nat, o: Order, c: string)
    requires Inv(s, o, c) && Enabled(s, Stage(order, e, at)) && InOrderStep(s, Stage(order, e, at))
    ensures Inv(Next(s, Stage(order, e, at)), o, c)
  {
    var s', es := Next(s, Stage(order, e, at)), StagedOf(s, o);
    var row := OutboxRow(order, |StagedOf(s, order)|, false);
    InsertedRowCounts(s.outbox, at, row, o);
    InsertedRowIsNumbered(s.outbox, at, row, o, MarkedOf(s, o));
    if order == o {
      StagingGrowsTheSource(s.topic, o, es, e);
      Grow(Source(es), [Own(e)], Upto(s.topic, o), Merge(Carried(s.topic, o, es)), c);
    }
  }

  // ── one poller pass ──

  lemma NumberedPrefix(rows: seq<OutboxRow>, o: Order, marked: nat)
    requires Numbered(rows, o, marked) && |rows| > 0
    ensures Numbered(rows[..|rows| - 1], o, marked)
  {
    var before := rows[..|rows| - 1];
    forall i: nat | i < |before| ensures NumberedAt(before, i, o, marked) {
      assert NumberedAt(rows, i, o, marked);
      assert before[..i] == rows[..i];
    }
  }

  lemma ContinuesAppend(rs: seq<Record>, r: Record, o: Order, marked: nat)
    requires Continues(rs, o, marked) && (r.order == o ==> r.n == marked + Count(rs, o))
    ensures Continues(rs + [r], o, marked)
    ensures Count(rs + [r], o) == Count(rs, o) + if r.order == o then 1 else 0
  {
    var rs' := rs + [r];
    assert rs'[..|rs|] == rs;
    forall k: nat | k < |rs'| ensures ContinuesAt(rs', k, o, marked) {
      if k < |rs| {
        assert ContinuesAt(rs, k, o, marked);
        assert rs'[..k] == rs[..k];
      }
    }
  }

  /** Rows are published from the front, so what is left of an order starts at its
      mark and has no gap. */
  lemma {:induction false} SelectionContinues(rows: seq<OutboxRow>, o: Order, marked: nat)
    requires Numbered(rows, o, marked)
    ensures Count(Unpublished(rows), o) == if CountRows(rows, o) < marked then 0 else CountRows(rows, o) - marked
    ensures Continues(Unpublished(rows), o, marked)
  {
    if |rows| > 0 {
      var before, last := rows[..|rows| - 1], rows[|rows| - 1];
      assert NumberedAt(rows, |before|, o, marked);
      NumberedPrefix(rows, o, marked);
      SelectionContinues(before, o, marked);
      if last.published {
        assert Unpublished(rows) == Unpublished(before);
      } else {
        ContinuesAppend(Unpublished(before), Record(last.order, last.n), o, marked);
      }
    }
  }

  lemma ContinuesPrefix(rs: seq<Record>, k: nat, o: Order, marked: nat)
    requires Continues(rs, o, marked) && k <= |rs|
    ensures Continues(rs[..k], o, marked) && Count(rs[..k], o) <= Count(rs, o)
  {
    CountGrows(rs, k, o);
    forall j: nat | j < k ensures ContinuesAt(rs[..k], j, o, marked) {
      assert ContinuesAt(rs, j, o, marked);
      assert rs[..k][..j] == rs[..j];
    }
  }

  lemma SelectKeeps(s: State, limit: nat, o: Order, c: string)
    requires Inv(s, o, c) && s.batch == []
    ensures Inv(Next(s, PollSelect(limit)), o, c)
  {
    var s', rows := Next(s, PollSelect(limit)), Unpublished(s.outbox);
    SelectionContinues(s.outbox, o, MarkedOf(s, o));
    ContinuesPrefix(rows, |s'.batch|, o, MarkedOf(s, o));
    assert s'.batch == rows[..|s'.batch|];
    assert MarkedOf(s, o) <= CountRows(s.outbox, o);
    assert PollerInv(s', o);
    assert RowInv(s', o, c);
  }

  lemma SendKeeps(s: State, o: Order, c: string)
    requires Inv(s, o, c) && Enabled(s, PollSend)
    ensures Inv(Next(s, PollSend), o, c)
  {
    SendKeepsTopic(s, o);
    SendKeepsRow(s, o, c);
  }

  lemma UptoGrows(topic: seq<Record>, r: Record, o: Order)
    ensures Upto(topic + [r], o) == if r.order == o then r.n + 1 else Upto(topic, o)
  {
    assert (topic + [r])[..|topic|] == topic;
  }

  /** The record about to be sent is the next of its order, or one sent before. */
  lemma NextInBatch(s: State, o: Order)
    requires PollerInv(s, o) && TopicInv(s, o) && s.sent < |s.batch|
    ensures var r, next := s.batch[s.sent], Count(s.batch[..s.sent + 1], o);
            && next == Count(s.batch[..s.sent], o) + (if r.order == o then 1 else 0)
            && (r.order == o ==> r.n + 1 == MarkedOf(s, o) + next && r.n < |StagedOf(s, o)| && r.n <= Upto(s.topic, o))
  {
    assert ContinuesAt(s.batch, s.sent, o, MarkedOf(s, o));
    CountStep(s.batch, s.sent, o);
    CountGrows(s.batch, s.sent + 1, o);
  }

  lemma SendKeepsTopic(s: State, o: Order)
    requires PollerInv(s, o) && TopicInv(s, o) && Enabled(s, PollSend)
    ensures TopicInv(Next(s, PollSend), o)
  {
    var r, t := s.batch[s.sent], Next(s, PollSend);
    NextInBatch(s, o);
    UptoGrows(s.topic, r, o);
    assert t.topic == s.topic + [r] && t.sent == s.sent + 1 && t.batch == s.batch;
    assert StagedOf(t, o) == StagedOf(s, o) && MarkedOf(t, o) == MarkedOf(s, o);
    assert MarkedOf(t, o) + Count(t.batch[..t.sent], o) <= Upto(t.topic, o) <= |StagedOf(t, o)|;
    forall i | 0 <= i < |t.topic| && t.topic[i].order == o ensures t.topic[i].n < |StagedOf(t, o)| {
      assert i < |s.topic| ==> t.topic[i] == s.topic[i];
    }
  }

  lemma CarriedGrows(topic: seq<Record>, r: Record, o: Order, es: seq<Facts.Event>)
    requires r.order == o ==> r.n < |es|
    ensures Carried(topic + [r], o, es) == Carried(topic, o, es) + [if r.order == o then Source(es)[r.n] else map[]]
  {
  }

  /** Sending an event again, or the next one, keeps the topic explicable. */
  lemma SendIsAReplay(topic: seq<Record>, r: Record, o: Order, es: seq<Facts.Event>, c: string)
    requires r.order == o ==> r.n < |es| && r.n <= Upto(topic, o)
    requires Behind(Source(es), Upto(topic, o), Merge(Carried(topic, o, es)), c)
    ensures Behind(Source(es), Upto(topic + [r], o), Merge(Carried(topic + [r], o, es)), c)
  {
    var carried := Carried(topic, o, es);
    CarriedGrows(topic, r, o, es);
    assert (topic + [r])[..|topic|] == topic;
    if r.order == o {
      MergeStep(carried, Source(es)[r.n]);
      Rewind(Source(es), Upto(topic, o), r.n, Merge(carried), c);
      Emit(Source(es), r.n, Merge(carried), c);
    } else {
      MergeStep(carried, map[]);
    }
  }

  lemma SendKeepsRow(s: State, o: Order, c: string)
    requires PollerInv(s, o) && TopicInv(s, o) && RowInv(s, o, c) && Enabled(s, PollSend)
    ensures RowInv(Next(s, PollSend), o, c)
  {
    var r, es := s.batch[s.sent], StagedOf(s, o);
    NextInBatch(s, o);
    SendIsAReplay(s.topic, r, o, es, c);
    CarriedGrows(s.topic, r, o, es);
    Grow(Carried(s.topic, o, es), [if r.order == o then Source(es)[r.n] else map[]], s.clean, Facts.Get(s.facts, o), c);
  }

  lemma MergeStep(src: seq<Columns>, more: Columns)
    ensures Merge(src + [more]) == Merge(src) + more
  {
    assert (src + [more])[..|src|] == src;
  }

  /** The batch holds the numbers of an order from its mark upwards. */
  lemma InBatch(batch: seq<Record>, o: Order, n: nat, marked: nat)
    requires Continues(batch, o, marked)
    ensures Record(o, n) in batch <==> marked <= n < marked + Count(batch, o)
  {
    if Record(o, n) in batch {
      var k :| 0 <= k < |batch| && batch[k] == Record(o, n);
      assert ContinuesAt(batch, k, o, marked);
      CountStep(batch, k, o);
      CountGrows(batch, k + 1, o);
    }
    if marked <= n < marked + Count(batch, o) {
      var k := CountReaches(batch, o, n - marked);
      assert ContinuesAt(batch, k, o, marked);
      assert batch[k] == Record(o, n);
    }
  }

  lemma MarkedRowsAreNumbered(rows: seq<OutboxRow>, batch: seq<Record>, o: Order, marked: nat)
    requires Numbered(rows, o, marked) && Continues(batch, o, marked)
    ensures Numbered(MarkRows(rows, batch), o, marked + Count(batch, o))
  {
    var rows' := MarkRows(rows, batch);
    var marked' := marked + Count(batch, o);
    forall i: nat | i < |rows'| ensures NumberedAt(rows', i, o, marked') {
      assert NumberedAt(rows, i, o, marked);
      assert rows'[..i] == MarkRows(rows[..i], batch);
      CountRowsAfterMark(rows[..i], batch, o);
      InBatch(batch, o, rows[i].n, marked);
    }
  }

  lemma MarkKeeps(s: State, o: Order, c: string)
    requires Inv(s, o, c) && Enabled(s, PollMark)
    ensures Inv(Next(s, PollMark), o, c)
  {
    assert s.batch[..s.sent] == s.batch;
    MarkedRowsAreNumbered(s.outbox, s.batch, o, MarkedOf(s, o));
    CountRowsAfterMark(s.outbox, s.batch, o);
    assert MarkedOf(Next(s, PollMark), o) == MarkedOf(s, o) + Count(s.batch, o);
  }

  // ── one consumer session ──

  /** A handled record writes its own order's row and no other. */
  lemma HandledRow(s: State, o: Order)
    requires WellKeyed(s.staged) && s.position < |s.topic|
    ensures Facts.Get(Facts.Apply(s.facts, EventOf(s, s.topic[s.position])), o)
         == Facts.Get(s.facts, o) + Carried(s.topic, o, StagedOf(s, o))[s.position]
  {
    var e := EventOf(s, s.topic[s.position]);
    if e.Lifecycle? {
      assert e.order == s.topic[s.position].order;
    }
  }

  lemma HandleKeeps(s: State, o: Order, c: string)
    requires WellKeyed(s.staged) && RowInv(s, o, c) && Enabled(s, Handle)
    ensures RowInv(Next(s, Handle), o, c)
  {
    var carried, row := Carried(s.topic, o, StagedOf(s, o)), Facts.Get(s.facts, o);
    if s.clean == s.position {
      Emit(carried, s.position, row, c);
    } else {
      EmitBeyond(carried, s.clean, s.position, row, c);
    }
    HandledRow(s, o);
  }

  lemma HandleRaisesKeeps(s: State, o: Order, c: string)
    requires Inv(s, o, c) && Enabled(s, HandleRaises)
    ensures Inv(Next(s, HandleRaises), o, c)
  {
    EmitBeyond(Carried(s.topic, o, StagedOf(s, o)), s.clean, s.position, Facts.Get(s.facts, o), c);
    HandledRow(s, o);
  }

  lemma NextKeeps(s: State, step: Step, o: Order, c: string)
    requires Inv(s, o, c) && InOrderStep(s, step)
    ensures Inv(Next(s, step), o, c)
  {
    if Enabled(s, step) {
      match step
      case Stage(order, e, at) => StageKeeps(s, order, e, at, o, c);
      case PollSelect(limit) => SelectKeeps(s, limit, o, c);
      case PollSend => SendKeeps(s, o, c);
      case PollMark => MarkKeeps(s, o, c);
      case PollCrash => PollCrashKeeps(s, o, c);
      case Handle => HandleKeeps(s, o, c);
      case HandleRaises => HandleRaisesKeeps(s, o, c);
      case GiveUp => PlaceKeeps(s, step, o, c);
      case Commit => PlaceKeeps(s, step, o, c);
      case ConsumerCrash => ConsumerCrashKeeps(s, o, c);
    }
  }

  lemma PollCrashKeeps(s: State, o: Order, c: string)
    requires Inv(s, o, c)
    ensures Inv(Next(s, PollCrash), o, c)
  {
  }

  lemma PlaceKeeps(s: State, step: Step, o: Order, c: string)
    requires Inv(s, o, c) && Enabled(s, step) && (step.GiveUp? || step.Commit?)
    ensures Inv(Next(s, step), o, c)
  {
  }

  lemma ConsumerCrashKeeps(s: State, o: Order, c: string)
    requires Inv(s, o, c)
    ensures Inv(Next(s, ConsumerCrash), o, c)
  {
    if s.committed < s.clean {
      Rewind(Carried(s.topic, o, StagedOf(s, o)), s.clean, s.committed, Facts.Get(s.facts, o), c);
    }
  }

  /** Every order's rows sort in the order they were staged in. */
  predicate StagedInOrder(steps: seq<Step>) {
    |steps| > 0 ==>
      StagedInOrder(steps[..|steps| - 1]) && InOrderStep(After(steps[..|steps| - 1]), steps[|steps| - 1])
  }

  lemma {:induction false} EveryRunKeepsInv(steps: seq<Step>, o: Order, c: string)
    requires StagedInOrder(steps)
    ensures Inv(After(steps), o, c)
  {
    if |steps| == 0 {
      Fresh([], c);
    } else {
      EveryRunKeepsInv(steps[..|steps| - 1], o, c);
      NextKeeps(After(steps[..|steps| - 1]), steps[|steps| - 1], o, c);
    }
  }

  // ── what holds of any staging ──

  /** Every record names an event that was staged. */
  ghost predicate Below(s: State) {
    && WellKeyed(s.staged)
    && (forall i :: 0 <= i < |s.outbox| ==> s.outbox[i].n < |StagedOf(s, s.outbox[i].order)|)
    && (forall i :: 0 <= i < |s.batch| ==> s.batch[i].n < |StagedOf(s, s.batch[i].order)|)
    && (forall i :: 0 <= i < |s.topic| ==> s.topic[i].n < |StagedOf(s, s.topic[i].order)|)
    && s.committed <= s.position <= |s.topic| && s.sent <= |s.batch|
  }

  lemma {:induction false} SelectedFromOutbox(rows: seq<OutboxRow>, r: Record)
    requires r in Unpublished(rows)
    ensures exists i :: 0 <= i < |rows| && rows[i].order == r.order && rows[i].n == r.n
  {
    var before := rows[..|rows| - 1];
    if r in Unpublished(before) {
      SelectedFromOutbox(before, r);
      var i :| 0 <= i < |before| && before[i].order == r.order && before[i].n == r.n;
      assert rows[i] == before[i];
    } else {
      assert rows[|rows| - 1].order == r.order;
    }
  }

  lemma StageKeepsBelow(s: State, order: Order, e: Facts.Event, at: nat)
    requires Below(s) && Enabled(s, Stage(order, e, at))
    ensures Below(Next(s, Stage(order, e, at)))
  {
    var s' := Next(s, Stage(order, e, at));
    forall i | 0 <= i < |s'.outbox| ensures s'.outbox[i].n < |StagedOf(s', s'.outbox[i].order)| {
      if i < at {
        assert s'.outbox[i] == s.outbox[i];
      } else if i > at {
        assert s'.outbox[i] == s.outbox[i - 1];
      }
    }
  }

  lemma SelectKeepsBelow(s: State, limit: nat)
    requires Below(s) && s.batch == []
    ensures Below(Next(s, PollSelect(limit)))
  {
    var s' := Next(s, PollSelect(limit));
    forall i | 0 <= i < |s'.batch| ensures s'.batch[i].n < |StagedOf(s', s'.batch[i].order)| {
      assert s'.batch[i] in Unpublished(s.outbox);
      SelectedFromOutbox(s.outbox, s'.batch[i]);
    }
  }

  lemma NextKeepsBelow(s: State, step: Step)
    requires Below(s)
    ensures Below(Next(s, step))
  {
    if Enabled(s, step) {
      match step
      case Stage(order, e, at) => StageKeepsBelow(s, order, e, at);
      case PollSelect(limit) => SelectKeepsBelow(s, limit);
      case PollSend =>
      case PollMark =>
      case _ =>
    }
  }

  lemma {:induction false} EveryRunIsBelow(steps: seq<Step>)
    ensures Below(After(steps))
  {
    if |steps| > 0 {
      EveryRunIsBelow(steps[..|steps| - 1]);
      NextKeepsBelow(After(steps[..|steps| - 1]), steps[|steps| - 1]);
    }
  }

  // ── the claim ──

  lemma AllSent(s: State, o: Order)
    requires PollerInv(s, o) && TopicInv(s, o) && Drained(s)
    ensures Upto(s.topic, o) == |StagedOf(s, o)|
  {
    if |StagedOf(s, o)| > 0 {
      var i := LastRow(s.outbox, o);
      assert NumberedAt(s.outbox, i, o, MarkedOf(s, o));
      assert s.outbox[i].published;
    }
  }

  /** The last time the run passed position i it handled the record there, and did not
      give it up. */
  ghost predicate LastPassHandled(steps: seq<Step>, i: nat) {
    |steps| > 0 &&
    var s, step := After(steps[..|steps| - 1]), steps[|steps| - 1];
    if Passes(s, step) && s.position == i then step.Handle?
    else LastPassHandled(steps[..|steps| - 1], i)
  }

  /** `clean` is the first position that was given up when it was last passed. */
  lemma {:induction false} CleanMeans(steps: seq<Step>)
    ensures var s := After(steps);
            && s.clean <= s.position && s.committed <= s.position
            && (forall i: nat :: i < s.clean ==> LastPassHandled(steps, i))
            && (s.clean < s.position ==> !LastPassHandled(steps, s.clean))
  {
    if |steps| > 0 {
      var before, step := steps[..|steps| - 1], steps[|steps| - 1];
      CleanMeans(before);
      ConsumerMoves(After(before), step);
      forall i: nat | i < After(steps).clean ensures LastPassHandled(steps, i) {
        if i < After(before).clean {
          assert LastPassHandled(before, i);
        }
      }
    }
  }

  predicate Passes(s: State, step: Step) { (step.Handle? || step.GiveUp?) && Enabled(s, step) }

  /** What a step does to the consumer's place. */
  lemma ConsumerMoves(s: State, step: Step)
    ensures var s' := Next(s, step);
            if Passes(s, step) then
              && s'.position == s.position + 1 && s'.committed == s.committed
              && s'.clean == if step.Handle? && s.clean == s.position then s.clean + 1 else s.clean
            else if step.ConsumerCrash? then
              && s'.position == s'.committed == s.committed
              && s'.clean == if s.clean < s.committed then s.clean else s.committed
            else
              && s'.position == s.position && s'.clean == s.clean
              && s'.committed == if step.Commit? then s.position else s.committed
  {
  }

  lemma {:induction false} DrainedRowsAreMerges(steps: seq<Step>, o: Order)
    requires StagedInOrder(steps) && Drained(After(steps))
    requires forall i: nat :: i < |After(steps).topic| ==> LastPassHandled(steps, i)
    ensures Facts.Get(After(steps).facts, o) == Merge(Source(StagedOf(After(steps), o)))
  {
    var s := After(steps);
    var es := StagedOf(s, o);
    var carried := Carried(s.topic, o, es);
    CleanMeans(steps);
    forall c
      ensures Behind(carried, |carried|, Facts.Get(s.facts, o), c)
      ensures Behind(Source(es), |Source(es)|, Merge(carried), c)
    {
      EveryRunKeepsInv(steps, o, c);
      AllSent(s, o);
    }
    Through(carried, Facts.Get(s.facts, o));
    Through(Source(es), Merge(carried));
  }

  /** Whatever crashed, was sent twice or was handled twice on the way: a run that
      drains, and gave up no record when it last passed it, leaves each order the row
      its staged events make one by one. */
  lemma {:induction false} CrashesLeaveNoTrace(steps: seq<Step>, o: Order)
    requires StagedInOrder(steps) && Drained(After(steps))
    requires forall i: nat :: i < |After(steps).topic| ==> LastPassHandled(steps, i)
    ensures Facts.Get(After(steps).facts, o) == Facts.Get(Facts.ApplyAll(map[], StagedOf(After(steps), o)), o)
  {
    var es := StagedOf(After(steps), o);
    DrainedRowsAreMerges(steps, o);
    EveryRunKeepsInv(steps, o, "");
    Facts.RowIsTheMerge(es, o);
    SourceIsColumns(es, o);
  }

  lemma {:induction false} NothingGivenUp(steps: seq<Step>, i: nat)
    requires GiveUp !in steps && i < After(steps).position
    ensures LastPassHandled(steps, i)
  {
    CleanMeans(steps);
    AllClean(steps);
  }

  lemma {:induction false} AllClean(steps: seq<Step>)
    requires GiveUp !in steps
    ensures After(steps).clean == After(steps).position
  {
    if |steps| > 0 {
      CleanMeans(steps[..|steps| - 1]);
      AllClean(steps[..|steps| - 1]);
      ConsumerMoves(After(steps[..|steps| - 1]), steps[|steps| - 1]);
    }
  }

  /** In particular a run in which the handler never ran out of attempts. */
  lemma {:induction false} RunsWithoutGiveUpLeaveNoTrace(steps: seq<Step>, o: Order)
    requires StagedInOrder(steps) && Drained(After(steps)) && GiveUp !in steps
    ensures Facts.Get(After(steps).facts, o) == Facts.Get(Facts.ApplyAll(map[], StagedOf(After(steps), o)), o)
  {
    forall i: nat | i < |After(steps).topic| ensures LastPassHandled(steps, i) {
      NothingGivenUp(steps, i);
    }
    CrashesLeaveNoTrace(steps, o);
  }

  lemma {:induction false} SourceIsColumns(es: seq<Facts.Event>, o: Order)
    requires forall i :: 0 <= i < |es| && es[i].Lifecycle? ==> es[i].order == o
    ensures Facts.ColumnsFor(es, o) == Source(es)
  {
    if |es| > 0 {
      var before := es[..|es| - 1];
      SourceIsColumns(before, o);
      assert Source(es) == Source(before) + [Own(es[|es| - 1])];
    }
  }

  // ── every run can still drain ──

  lemma {:induction false} FromSplits(s: State, a: seq<Step>, b: seq<Step>)
    ensures From(s, a + b) == From(From(s, a), b)
  {
    if |b| == 0 {
      assert a + b == a;
    } else {
      assert (a + b)[..|a + b| - 1] == a + b[..|b| - 1];
      FromSplits(s, a, b[..|b| - 1]);
    }
  }

  function Times(k: nat, step: Step): seq<Step> { seq(k, _ => step) }

  lemma FromStep(s: State, steps: seq<Step>, step: Step)
    ensures From(s, steps + [step]) == Next(From(s, steps), step)
  {
    assert (steps + [step])[..|steps|] == steps;
  }

  lemma FromOne(s: State, step: Step)
    ensures From(s, [step]) == Next(s, step)
  {
    FromStep(s, [], step);
    assert [] + [step] == [step];
  }

  function SentOn(s: State, k: nat): State
    requires s.sent + k <= |s.batch|
  {
    s.(topic := s.topic + s.batch[s.sent..s.sent + k], sent := s.sent + k)
  }

  lemma SendOne(s: State, k: nat)
    requires k > 0 && s.sent + k <= |s.batch|
    ensures Next(SentOn(s, k - 1), PollSend) == SentOn(s, k)
  {
    assert s.batch[s.sent..s.sent + k] == s.batch[s.sent..s.sent + k - 1] + [s.batch[s.sent + k - 1]];
  }

  lemma {:induction false} SendTheRest(s: State, k: nat)
    requires s.sent + k <= |s.batch|
    ensures From(s, Times(k, PollSend)) == SentOn(s, k)
  {
    if k > 0 {
      calc {
        From(s, Times(k, PollSend));
        { TimesStep(k, PollSend); }
        From(s, Times(k - 1, PollSend) + [PollSend]);
        { FromStep(s, Times(k - 1, PollSend), PollSend); }
        Next(From(s, Times(k - 1, PollSend)), PollSend);
        { SendTheRest(s, k - 1); }
        Next(SentOn(s, k - 1), PollSend);
        { SendOne(s, k); }
        SentOn(s, k);
      }
    } else {
      assert s.topic + s.batch[s.sent..s.sent] == s.topic;
    }
  }

  /** A pass that selects, sends k of its rows and then marks or crashes. */
  lemma PassSteps(s: State, batchSize: nat, k: nat, last: Step) returns (steps: seq<Step>)
    requires s.batch == [] && k <= |Selected(s.outbox, batchSize)|
    ensures var rows := Selected(s.outbox, batchSize);
            From(s, steps) == Next(s.(batch := rows, topic := s.topic + rows[..k], sent := k), last)
  {
    var opening := [PollSelect(batchSize)];
    FromOne(s, PollSelect(batchSize));
    SendTheRest(From(s, opening), k);
    FromSplits(s, opening, Times(k, PollSend));
    FromStep(s, opening + Times(k, PollSend), last);
    steps := opening + Times(k, PollSend) + [last];
  }

  /** The next k records, as the handler of a batch would get them. */
  function Batch(s: State, k: nat): seq<Facts.Event>
    requires s.position + k <= |s.topic|
  {
    seq(k, i requires 0 <= i < k => EventOf(s, s.topic[s.position + i]))
  }

  lemma SameEvent(s: State, s': State, r: Record)
    requires s.staged == s'.staged
    ensures EventOf(s, r) == EventOf(s', r)
  {
  }

  lemma HandleOne(s: State)
    requires s.position < |s.topic|
    ensures Next(s, Handle)
         == s.(position := s.position + 1, facts := Facts.Apply(s.facts, EventOf(s, s.topic[s.position])),
               clean := if s.clean == s.position then s.clean + 1 else s.clean)
  {
  }

  function Handled(s: State, k: nat): State
    requires s.position + k <= |s.topic|
  {
    s.(position := s.position + k, facts := Facts.ApplyAll(s.facts, Batch(s, k)),
       clean := if s.clean == s.position then s.clean + k else s.clean)
  }

  lemma HandledGrows(s: State, k: nat)
    requires k > 0 && s.position + k <= |s.topic| && s.clean <= s.position
    ensures Next(Handled(s, k - 1), Handle) == Handled(s, k)
  {
    var before := Handled(s, k - 1);
    HandleOne(before);
    BatchGrows(s, k);
    SameEvent(s, before, s.topic[s.position + k - 1]);
  }

  /** One batch of k records, applied as a whole, is k single steps. */
  lemma {:induction false} BatchIsSingles(s: State, k: nat)
    requires s.position + k <= |s.topic| && s.clean <= s.position
    ensures From(s, Times(k, Handle)) == Handled(s, k)
  {
    if k > 0 {
      calc {
        From(s, Times(k, Handle));
        { TimesStep(k, Handle); }
        From(s, Times(k - 1, Handle) + [Handle]);
        { FromStep(s, Times(k - 1, Handle), Handle); }
        Next(From(s, Times(k - 1, Handle)), Handle);
        { BatchIsSingles(s, k - 1); }
        Next(Handled(s, k - 1), Handle);
        { HandledGrows(s, k); }
        Handled(s, k);
      }
    }
  }

  lemma TimesStep(k: nat, step: Step)
    requires k > 0
    ensures Times(k, step) == Times(k - 1, step) + [step]
  {
  }

  lemma BatchGrows(s: State, k: nat)
    requires k > 0 && s.position + k <= |s.topic|
    ensures Facts.ApplyAll(s.facts, Batch(s, k))
         == Facts.Apply(Facts.ApplyAll(s.facts, Batch(s, k - 1)), EventOf(s, s.topic[s.position + k - 1]))
  {
    assert Batch(s, k)[..k - 1] == Batch(s, k - 1);
  }

  lemma {:induction false} EveryUnpublishedRowIsSelected(outbox: seq<OutboxRow>, i: nat)
    requires i < |outbox| && !outbox[i].published
    ensures Record(outbox[i].order, outbox[i].n) in Unpublished(outbox)
  {
    if i < |outbox| - 1 {
      EveryUnpublishedRowIsSelected(outbox[..|outbox| - 1], i);
    }
  }

  predicate Rising(at: seq<nat>) { forall i, j :: 0 <= i < j < |at| ==> at[i] < at[j] }

  /** These are the rows at those positions, none of them published. */
  ghost predicate RowsAt(outbox: seq<OutboxRow>, at: seq<nat>, rows: seq<Record>) {
    && |at| == |rows| && Rising(at)
    && forall i :: 0 <= i < |at| ==>
         at[i] < |outbox| && !outbox[at[i]].published && rows[i] == Record(outbox[at[i]].order, outbox[at[i]].n)
  }

  ghost predicate CoversAll(outbox: seq<OutboxRow>, at: seq<nat>) {
    forall x: nat :: x < |outbox| && !outbox[x].published ==> x in at
  }

  lemma {:induction false} UnpublishedAt(outbox: seq<OutboxRow>) returns (at: seq<nat>)
    ensures RowsAt(outbox, at, Unpublished(outbox)) && CoversAll(outbox, at)
  {
    if |outbox| == 0 {
      at := [];
    } else {
      var before, last := outbox[..|outbox| - 1], |outbox| - 1;
      var sofar := UnpublishedAt(before);
      RowsAtGrows(outbox, sofar);
      CoverGrows(outbox, sofar);
      if outbox[last].published {
        at := sofar;
      } else {
        RowsAtSnoc(outbox, sofar, Unpublished(before), last);
        at := sofar + [last];
      }
    }
  }

  lemma CoverGrows(outbox: seq<OutboxRow>, at: seq<nat>)
    requires |outbox| > 0 && CoversAll(outbox[..|outbox| - 1], at)
    ensures CoversAll(outbox, if outbox[|outbox| - 1].published then at else at + [|outbox| - 1])
  {
    var before, at' := outbox[..|outbox| - 1], if outbox[|outbox| - 1].published then at else at + [|outbox| - 1];
    forall x: nat | x < |outbox| && !outbox[x].published ensures x in at' {
      if x < |before| {
        assert before[x] == outbox[x];
      } else {
        assert at'[|at|] == x;
      }
    }
  }

  lemma RowsAtGrows(outbox: seq<OutboxRow>, at: seq<nat>)
    requires |outbox| > 0 && RowsAt(outbox[..|outbox| - 1], at, Unpublished(outbox[..|outbox| - 1]))
    ensures RowsAt(outbox, at, Unpublished(outbox[..|outbox| - 1]))
    ensures forall i :: 0 <= i < |at| ==> at[i] < |outbox| - 1
  {
  }

  lemma RowsAtSnoc(outbox: seq<OutboxRow>, at: seq<nat>, rows: seq<Record>, x: nat)
    requires RowsAt(outbox, at, rows) && x < |outbox| && !outbox[x].published && forall i :: 0 <= i < |at| ==> at[i] < x
    ensures RowsAt(outbox, at + [x], rows + [Record(outbox[x].order, outbox[x].n)])
  {
  }

  /** What one pass selects: in the order of the outbox, rows that are not published, at
      most `limit` of them, and none left out before the last one. */
  lemma {:induction false} SelectedAt(outbox: seq<OutboxRow>, limit: nat) returns (at: seq<nat>)
    ensures RowsAt(outbox, at, Selected(outbox, limit)) && |at| <= limit
    ensures forall x: nat :: x < |outbox| && !outbox[x].published && x !in at ==>
              |at| == limit && forall i :: 0 <= i < |at| ==> at[i] < x
  {
    var all := UnpublishedAt(outbox);
    at := all;
    if limit < |all| {
      at := all[..limit];
      PrefixOfRows(outbox, all, Unpublished(outbox), limit);
      forall x: nat | x < |outbox| && !outbox[x].published && x !in at ensures forall i :: 0 <= i < |at| ==> at[i] < x {
        PrefixIsEarlier(all, limit, x);
      }
    }
  }

  lemma PrefixOfRows(outbox: seq<OutboxRow>, at: seq<nat>, rows: seq<Record>, n: nat)
    requires RowsAt(outbox, at, rows) && n <= |at|
    ensures RowsAt(outbox, at[..n], rows[..n])
  {
  }

  lemma PrefixIsEarlier(all: seq<nat>, n: nat, x: nat)
    requires Rising(all) && n <= |all| && x in all && x !in all[..n]
    ensures forall i :: 0 <= i < n ==> all[..n][i] < x
  {
    var k := PastPrefix(all, n, x);
  }

  lemma PastPrefix(all: seq<nat>, n: nat, x: nat) returns (k: nat)
    requires n <= |all| && x in all && x !in all[..n]
    ensures n <= k < |all| && all[k] == x
  {
    assert all == all[..n] + all[n..];
    var i :| 0 <= i < |all[n..]| && all[n..][i] == x;
    k := n + i;
  }

  lemma MarkingAllPublishesAll(outbox: seq<OutboxRow>)
    ensures forall i :: 0 <= i < |outbox| ==> MarkRows(outbox, Unpublished(outbox))[i].published
  {
    forall i | 0 <= i < |outbox| ensures MarkRows(outbox, Unpublished(outbox))[i].published {
      if !outbox[i].published {
        EveryUnpublishedRowIsSelected(outbox, i);
      }
    }
  }

  /** From any state one undisturbed poller pass publishes the whole backlog. */
  lemma OnePassPublishes(s: State) returns (more: seq<Step>)
    ensures var s' := From(s, more);
            && (forall i :: 0 <= i < |s'.outbox| ==> s'.outbox[i].published)
            && s'.staged == s.staged && s'.position == s.position && s'.clean == s.clean && |s'.topic| >= |s.topic|
  {
    var rows := Unpublished(s.outbox);
    MarkingAllPublishesAll(s.outbox);
    var idle := Next(s, PollCrash);
    FromOne(s, PollCrash);
    var pass := PassSteps(idle, |rows|, |rows|, PollMark);
    FromSplits(s, [PollCrash], pass);
    more := [PollCrash] + pass;
    if |rows| == 0 {
      assert MarkRows(s.outbox, rows) == s.outbox;
    }
  }

  /** However a run crashed so far, it can be continued to a drained one without
      staging anything more. */
  lemma EveryRunCanDrain(steps: seq<Step>) returns (more: seq<Step>)
    ensures Drained(After(steps + more)) && After(steps + more).staged == After(steps).staged
  {
    var s := After(steps);
    CleanMeans(steps);
    EveryRunIsBelow(steps);
    var pass := OnePassPublishes(s);
    var sent := From(s, pass);
    var rest := Times(|sent.topic| - sent.position, Handle);
    BatchIsSingles(sent, |sent.topic| - sent.position);
    more := pass + rest;
    FromSplits(s, pass, rest);
    FromSplits(EMPTY, steps, more);
  }

  // ── the poller ──

  /** The poller's loop over the shared state. The failing send may have reached the
      broker although it was never confirmed. */
  class OutboxPoller {
    var s: State

    constructor ()
      ensures s == EMPTY
    {
      s := EMPTY;
    }

    /** One pass. Rows are marked only when every send was confirmed; a pass that
        raises leaves the outbox as it was and the topic longer by what was sent. */
    method DrainOnce(batchSize: nat, failsAt: nat, landed: bool) returns (drained: Option<nat>, ghost steps: seq<Step>)
      requires s.batch == [] && s.sent == 0
      modifies this
      ensures s == From(old(s), steps) && s.batch == [] && s.sent == 0
      ensures var rows := Selected(old(s.outbox), batchSize);
              if failsAt < |rows|
              then && drained == None
                   && s == old(s).(topic := old(s.topic) + rows[..if landed then failsAt + 1 else failsAt])
              else && drained == Some(|rows|)
                   && s.topic == old(s.topic) + rows
                   && s.outbox == MarkRows(old(s.outbox), rows)
    {
      var rows := Selected(s.outbox, batchSize);
      if |rows| == 0 {
        steps := [];
        assert s.topic + rows == s.topic;
        assert MarkRows(s.outbox, rows) == s.outbox;
        drained := Some(0);
        return;
      }
      var i := 0;
      while i < |rows|
        invariant 0 <= i <= |rows| && i <= failsAt
        invariant s == old(s).(topic := old(s.topic) + rows[..i])
      {
        if i < failsAt || landed {
          s := s.(topic := s.topic + [rows[i]]);
          assert old(s.topic) + rows[..i] + [rows[i]] == old(s.topic) + rows[..i + 1];
        }
        if i == failsAt {
          steps := PassSteps(old(s), batchSize, if landed then i + 1 else i, PollCrash);
          drained := None;
          return;
        }
        i := i + 1;
      }
      assert rows[..i] == rows;
      steps := PassSteps(old(s), batchSize, |rows|, PollMark);
      s := Next(s.(batch := rows, sent := |rows|), PollMark);
      drained := Some(|rows|);
    }
  }
}
