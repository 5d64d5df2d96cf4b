/** The analytics projector: `fold_facts`, the bulk upsert and the batch handler
    with its degrade-to-singles arm. An event is modelled by what `event_values`
    makes of it: nothing, an exception, or the columns it owns of one order. */
module Facts {
  import opened Replay

  datatype Event =
    | Unknown
    | Unreadable(payload: string)
    | Lifecycle(order: string, columns: Columns)

  datatype FactRow = FactRow(order: string, columns: Columns)

  type Table = map<string, Columns>

  function Get(t: Table, order: string): Columns { if order in t then t[order] else map[] }

  /** INSERT .. ON CONFLICT DO UPDATE of exactly the row's own columns. */
  function Upsert(t: Table, row: FactRow): Table { t[row.order := Get(t, row.order) + row.columns] }

  function UpsertAll(t: Table, rows: seq<FactRow>): Table {
    if |rows| == 0 then t else Upsert(UpsertAll(t, rows[..|rows| - 1]), rows[|rows| - 1])
  }

  /** Events one by one; the unreadable and the unknown write nothing. */
  function Apply(t: Table, e: Event): Table {
    if e.Lifecycle? then Upsert(t, FactRow(e.order, e.columns)) else t
  }

  function ApplyAll(t: Table, es: seq<Event>): Table {
    if |es| == 0 then t else Apply(ApplyAll(t, es[..|es| - 1]), es[|es| - 1])
  }

  predicate AllReadable(es: seq<Event>) { forall e :: e in es ==> !e.Unreadable? }

  function Orders(rows: seq<FactRow>): set<string> {
    if |rows| == 0 then {} else Orders(rows[..|rows| - 1]) + {rows[|rows| - 1].order}
  }

  predicate OneRowPerOrder(rows: seq<FactRow>) {
    |rows| > 0 ==> OneRowPerOrder(rows[..|rows| - 1]) && rows[|rows| - 1].order !in Orders(rows[..|rows| - 1])
  }

  // ── rows of different orders commute ──

  /** Every order has exactly one row among those of `OneRowPerOrder`. */
  lemma {:induction false} RowsByOrder(rows: seq<FactRow>)
    ensures forall i :: 0 <= i < |rows| ==> rows[i].order in Orders(rows)
    ensures forall o :: o in Orders(rows) ==> exists i :: 0 <= i < |rows| && rows[i].order == o
    ensures OneRowPerOrder(rows) ==> forall i, j :: 0 <= i < j < |rows| ==> rows[i].order != rows[j].order
  {
    if |rows| > 0 {
      var before := rows[..|rows| - 1];
      RowsByOrder(before);
      assert forall i :: 0 <= i < |before| ==> before[i] == rows[i];
      forall o | o in Orders(rows) ensures exists i :: 0 <= i < |rows| && rows[i].order == o {
        if o in Orders(before) {
          var i :| 0 <= i < |before| && before[i].order == o;
          assert rows[i].order == o;
        } else {
          assert rows[|rows| - 1].order == o;
        }
      }
    }
  }

  /** What a row set makes of one order. */
  function RowOf(rows: seq<FactRow>, order: string): Columns {
    if |rows| == 0 then map[]
    else if rows[|rows| - 1].order == order then rows[|rows| - 1].columns
    else RowOf(rows[..|rows| - 1], order)
  }

  lemma {:induction false} UpsertAllAt(t: Table, rows: seq<FactRow>, o: string)
    requires OneRowPerOrder(rows)
    ensures o in UpsertAll(t, rows) <==> o in t || o in Orders(rows)
    ensures Get(UpsertAll(t, rows), o) == Get(t, o) + if o in Orders(rows) then RowOf(rows, o) else map[]
  {
    if |rows| > 0 {
      UpsertAllAt(t, rows[..|rows| - 1], o);
    }
  }

  lemma {:induction false} RowOfIsTheRow(rows: seq<FactRow>, i: nat)
    requires OneRowPerOrder(rows) && i < |rows|
    ensures RowOf(rows, rows[i].order) == rows[i].columns
  {
    var before := rows[..|rows| - 1];
    if i < |before| {
      RowOfIsTheRow(before, i);
      RowsByOrder(before);
      assert before[i] == rows[i];
    }
  }

  /** The statements may run in any order. */
  lemma AnyOrderOfRows(t: Table, rows: seq<FactRow>, rows': seq<FactRow>)
    requires OneRowPerOrder(rows) && OneRowPerOrder(rows')
    requires forall r :: r in rows <==> r in rows'
    ensures UpsertAll(t, rows) == UpsertAll(t, rows')
  {
    var u, u' := UpsertAll(t, rows), UpsertAll(t, rows');
    forall o ensures (o in u <==> o in u') && Get(u, o) == Get(u', o) {
      UpsertAllAt(t, rows, o);
      UpsertAllAt(t, rows', o);
      SameRowOf(rows, rows', o);
      SameRowOf(rows', rows, o);
    }
    assert forall o :: o in u ==> u[o] == Get(u, o) && u'[o] == Get(u', o);
  }

  lemma SameRowOf(rows: seq<FactRow>, rows': seq<FactRow>, o: string)
    requires OneRowPerOrder(rows) && OneRowPerOrder(rows')
    requires forall r :: r in rows ==> r in rows'
    ensures o in Orders(rows) ==> o in Orders(rows') && RowOf(rows, o) == RowOf(rows', o)
  {
    RowsByOrder(rows);
    RowsByOrder(rows');
    if o in Orders(rows) {
      var i :| 0 <= i < |rows| && rows[i].order == o;
      assert rows[i] in rows';
      var j :| 0 <= j < |rows'| && rows'[j] == rows[i];
      RowOfIsTheRow(rows, i);
      RowOfIsTheRow(rows', j);
    }
  }

  // ── fold_facts ──

  datatype Folded = Raised | Rows(rows: seq<FactRow>)

  /** The fold's loop as a function: the row of the event's order is merged into in
      place, or a new one is added at the end. */
  function Absorb(rows: seq<FactRow>, e: Event): seq<FactRow> {
    if !e.Lifecycle? then rows else Into(rows, e.order, e.columns)
  }

  function Into(rows: seq<FactRow>, order: string, columns: Columns): seq<FactRow> {
    if |rows| == 0 then [FactRow(order, columns)]
    else if rows[|rows| - 1].order == order
    then rows[..|rows| - 1] + [FactRow(order, rows[|rows| - 1].columns + columns)]
    else Into(rows[..|rows| - 1], order, columns) + [rows[|rows| - 1]]
  }

  /** Two upserts of one order are one upsert of the merged columns. */
  lemma UpsertsMerge(t: Table, order: string, a: Columns, b: Columns)
    ensures Upsert(Upsert(t, FactRow(order, a)), FactRow(order, b)) == Upsert(t, FactRow(order, a + b))
  {
    var sofar := Get(t, order);
    assert sofar + (a + b) == sofar + a + b;
  }

  lemma {:induction false} IntoOrders(rows: seq<FactRow>, order: string, columns: Columns)
    requires OneRowPerOrder(rows)
    ensures OneRowPerOrder(Into(rows, order, columns))
    ensures Orders(Into(rows, order, columns)) == Orders(rows) + {order}
  {
    var into := Into(rows, order, columns);
    if |rows| > 0 {
      var before := rows[..|rows| - 1];
      if rows[|rows| - 1].order == order {
        assert into[..|into| - 1] == before;
      } else {
        IntoOrders(before, order, columns);
        assert into[..|into| - 1] == Into(before, order, columns);
      }
    }
  }

  /** Merging into a row of its own is one more upsert. */
  lemma {:induction false} IntoIsUpsert(t: Table, rows: seq<FactRow>, order: string, columns: Columns)
    ensures UpsertAll(t, Into(rows, order, columns)) == Upsert(UpsertAll(t, rows), FactRow(order, columns))
  {
    var into := Into(rows, order, columns);
    if |rows| == 0 {
      assert into[..0] == [];
    } else {
      var before, last := rows[..|rows| - 1], rows[|rows| - 1];
      if last.order == order {
        assert into[..|into| - 1] == before;
        UpsertsMerge(UpsertAll(t, before), order, last.columns, columns);
      } else {
        IntoIsUpsert(t, before, order, columns);
        assert into[..|into| - 1] == Into(before, order, columns);
        UpsertsCommute(UpsertAll(t, before), FactRow(order, columns), last);
      }
    }
  }

  lemma UpsertsCommute(t: Table, a: FactRow, b: FactRow)
    requires a.order != b.order
    ensures Upsert(Upsert(t, a), b) == Upsert(Upsert(t, b), a)
  {
  }

  /** At most one row per order, and upserting the rows is applying the readable
      events one by one, onto any table. */
  method FoldFacts(events: seq<Event>, ghost t: Table) returns (r: Folded)
    ensures r.Raised? <==> !AllReadable(events)
    ensures r.Rows? ==> OneRowPerOrder(r.rows)
    ensures r.Rows? ==> UpsertAll(t, r.rows) == ApplyAll(t, events)
  {
    var merged: seq<FactRow> := [];
    for i := 0 to |events|
      invariant AllReadable(events[..i])
      invariant OneRowPerOrder(merged)
      invariant UpsertAll(t, merged) == ApplyAll(t, events[..i])
    {
      assert events[..i + 1][..i] == events[..i];
      assert events[..i + 1] == events[..i] + [events[i]];
      if events[i].Unreadable? {
        assert events[i] in events;
        return Raised;
      }
      if events[i].Lifecycle? {
        IntoOrders(merged, events[i].order, events[i].columns);
        IntoIsUpsert(t, merged, events[i].order, events[i].columns);
      }
      merged := Absorb(merged, events[i]);
    }
    assert events[..|events|] == events;
    r := Rows(merged);
  }

  // ── batches ──

  lemma {:induction false} ApplyAllSplits(t: Table, a: seq<Event>, b: seq<Event>)
    ensures ApplyAll(t, a + b) == ApplyAll(ApplyAll(t, a), b)
  {
    if |b| == 0 {
      assert a + b == a;
    } else {
      assert (a + b)[..|a + b| - 1] == a + b[..|b| - 1];
      ApplyAllSplits(t, a, b[..|b| - 1]);
    }
  }

  function Flatten(batches: seq<seq<Event>>): seq<Event> {
    if |batches| == 0 then [] else Flatten(batches[..|batches| - 1]) + batches[|batches| - 1]
  }

  function Parkable(es: seq<Event>): seq<Event> {
    if |es| == 0 then []
    else Parkable(es[..|es| - 1]) + if es[|es| - 1].Unreadable? then [es[|es| - 1]] else []
  }

  lemma {:induction false} ParkableSplits(a: seq<Event>, b: seq<Event>)
    ensures Parkable(a + b) == Parkable(a) + Parkable(b)
  {
    if |b| == 0 {
      assert a + b == a;
    } else {
      assert (a + b)[..|a + b| - 1] == a + b[..|b| - 1];
      ParkableSplits(a, b[..|b| - 1]);
    }
  }

  lemma {:induction false} NothingToPark(es: seq<Event>)
    requires AllReadable(es)
    ensures Parkable(es) == []
  {
    if |es| > 0 {
      NothingToPark(es[..|es| - 1]);
      assert es[|es| - 1] in es;
    }
  }

  class FactsProjector {
    var table: Table
    var parked: seq<Event>

    constructor ()
      ensures table == map[] && parked == []
    {
      table, parked := map[], [];
    }

    /** One transaction: parse errors raise before it opens. */
    method HandleBatch(events: seq<Event>) returns (handled: bool)
      modifies this`table
      ensures handled <==> AllReadable(events)
      ensures table == if handled then ApplyAll(old(table), events) else old(table)
    {
      var folded := FoldFacts(events, table);
      match folded {
        case Raised => handled := false;
        case Rows(rows) =>
          handled := true;
          ghost var before := table;
          for i := 0 to |rows|
            invariant table == UpsertAll(before, rows[..i])
          {
            assert rows[..i + 1][..i] == rows[..i];
            table := Upsert(table, rows[i]);
          }
          assert rows[..|rows|] == rows;
      }
    }

    /** The batch arm of the consumer runtime over this handler. With at least one
        attempt per event, a batch that holds unreadable payloads degrades to
        singles with the same result, and exactly those are parked, in order; with
        no attempts such a batch is silently dropped. */
    method HandleOrDegrade(events: seq<Event>, maxAttempts: int)
      modifies this
      ensures maxAttempts >= 1 || AllReadable(events) ==>
                table == ApplyAll(old(table), events) && parked == old(parked) + Parkable(events)
      ensures maxAttempts < 1 && !AllReadable(events) ==> table == old(table) && parked == old(parked)
    {
      var whole := HandleBatch(events);
      if whole {
        NothingToPark(events);
        return;
      }
      for i := 0 to |events|
        invariant maxAttempts >= 1 ==> table == ApplyAll(old(table), events[..i])
        invariant maxAttempts >= 1 ==> parked == old(parked) + Parkable(events[..i])
        invariant maxAttempts < 1 ==> table == old(table) && parked == old(parked)
      {
        assert events[..i + 1][..i] == events[..i];
        Single(events[i], maxAttempts);
      }
      assert events[..|events|] == events;
    }

    /** One event with its bounded retries; a payload that cannot be read never
        heals, so it is parked after the last attempt. */
    method Single(event: Event, maxAttempts: int)
      modifies this
      ensures maxAttempts >= 1 ==>
                && table == Apply(old(table), event)
                && parked == old(parked) + if event.Unreadable? then [event] else []
      ensures maxAttempts < 1 ==> table == old(table) && parked == old(parked)
    {
      var attempt := 1;
      while attempt <= maxAttempts
        invariant attempt >= 1
        invariant attempt > 1 ==> event.Unreadable?
        invariant maxAttempts >= 1 ==> attempt <= maxAttempts
        invariant table == old(table) && parked == old(parked)
      {
        var ok := HandleBatch([event]);
        if ok {
          assert event in [event];
          assert [event][..0] == [];
          return;
        }
        assert event.Unreadable?;
        if attempt == maxAttempts {
          parked := parked + [event];
          return;
        }
        attempt := attempt + 1;
      }
    }

    /** Any split of the stream into batches gives the table of the whole stream. */
    method ConsumeAll(batches: seq<seq<Event>>, maxAttempts: int)
      requires maxAttempts >= 1
      modifies this
      ensures table == ApplyAll(old(table), Flatten(batches))
      ensures parked == old(parked) + Parkable(Flatten(batches))
    {
      for i := 0 to |batches|
        invariant table == ApplyAll(old(table), Flatten(batches[..i]))
        invariant parked == old(parked) + Parkable(Flatten(batches[..i]))
      {
        assert batches[..i + 1][..i] == batches[..i];
        ApplyAllSplits(old(table), Flatten(batches[..i]), batches[i]);
        ParkableSplits(Flatten(batches[..i]), batches[i]);
        HandleOrDegrade(batches[i], maxAttempts);
      }
      assert batches[..|batches|] == batches;
    }
  }

  // ── one order at a time ──

  /** The columns each event contributes to one order; none for the others'. */
  function ColumnsFor(es: seq<Event>, order: string): seq<Columns> {
    if |es| == 0 then []
    else ColumnsFor(es[..|es| - 1], order) +
         [if es[|es| - 1].Lifecycle? && es[|es| - 1].order == order then es[|es| - 1].columns else map[]]
  }

  /** A fact row is the in-order merge of its own order's events. */
  lemma {:induction false} RowIsTheMerge(es: seq<Event>, order: string)
    ensures |ColumnsFor(es, order)| == |es|
    ensures Get(ApplyAll(map[], es), order) == Merge(ColumnsFor(es, order))
  {
    if |es| > 0 {
      RowIsTheMerge(es[..|es| - 1], order);
      var cols := ColumnsFor(es, order);
      assert cols[..|cols| - 1] == ColumnsFor(es[..|es| - 1], order);
    }
  }
}
