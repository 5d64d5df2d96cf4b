/** Runs of the pipeline as schedules: with any staging order, crashes, repeats, calls
    that commit and raise, and records given up, what an order's fact row is in the
    end, and exactly when that is the merge whatever the events say. */
module Schedules {
  import opened Replay
  import opened Pipeline
  import Facts

  /** A step that writes the record at the consumer's position. */
  predicate Writes(s: State, step: Step) { (step.Handle? || step.HandleRaises?) && Enabled(s, step) }

  /** The events of an order whose columns were written, in the order of time. */
  function WrittenOf(steps: seq<Step>, o: Order): seq<nat> {
    if |steps| == 0 then []
    else
      var s, step := After(steps[..|steps| - 1]), steps[|steps| - 1];
      var before := WrittenOf(steps[..|steps| - 1], o);
      if Writes(s, step) && s.topic[s.position].order == o then before + [s.topic[s.position].n] else before
  }

  ghost predicate RowIs(s: State, o: Order, h: seq<nat>) {
    && (forall i :: 0 <= i < |h| ==> h[i] < |StagedOf(s, o)|)
    && Facts.Get(s.facts, o) == Merge(Pick(Source(StagedOf(s, o)), h))
  }

  lemma PickGrows(src: seq<Columns>, more: seq<Columns>, h: seq<nat>)
    requires forall i :: 0 <= i < |h| ==> h[i] < |src|
    ensures Pick(src + more, h) == Pick(src, h)
  {
  }

  lemma PickStep(src: seq<Columns>, h: seq<nat>, n: nat)
    requires n < |src|
    ensures Merge(Pick(src, h + [n])) == Merge(Pick(src, h)) + src[n]
  {
    assert Pick(src, h + [n]) == Pick(src, h) + [src[n]];
    MergeStep(Pick(src, h), src[n]);
  }

  lemma WriteStep(s: State, step: Step, o: Order, h: seq<nat>)
    requires Below(s) && Writes(s, step) && RowIs(s, o, h)
    ensures var r := s.topic[s.position]; RowIs(Next(s, step), o, if r.order == o then h + [r.n] else h)
  {
    var r, src := s.topic[s.position], Source(StagedOf(s, o));
    HandledRow(s, o);
    if r.order == o {
      PickStep(src, h, r.n);
    }
  }

  lemma RowStays(s: State, step: Step, o: Order, h: seq<nat>)
    requires !Writes(s, step) && RowIs(s, o, h)
    ensures RowIs(Next(s, step), o, h)
  {
    if step.Stage? && Enabled(s, step) && step.order == o {
      assert Source(StagedOf(s, o) + [step.event]) == Source(StagedOf(s, o)) + [Own(step.event)];
      PickGrows(Source(StagedOf(s, o)), [Own(step.event)], h);
    }
  }

  /** In every run a fact row is the merge of what was written, in the order of time. */
  lemma {:induction false} RowIsWhatWasWritten(steps: seq<Step>, o: Order)
    ensures RowIs(After(steps), o, WrittenOf(steps, o))
  {
    if |steps| > 0 {
      var before, step := steps[..|steps| - 1], steps[|steps| - 1];
      RowIsWhatWasWritten(before, o);
      EveryRunIsBelow(before);
      if Writes(After(before), step) {
        WriteStep(After(before), step, o, WrittenOf(before, o));
      } else {
        RowStays(After(before), step, o, WrittenOf(before, o));
      }
    }
  }

  // ── the same schedule with other contents ──

  /** The step, telling of order o what `other` has at its place. */
  function RetoldStep(s: State, step: Step, o: Order, other: seq<Columns>): Step {
    if step.Stage? && step.order == o && Enabled(s, step) && |StagedOf(s, o)| < |other|
    then Stage(o, Facts.Lifecycle(o, other[|StagedOf(s, o)|]), step.at)
    else step
  }

  /** The same run, with `other` as what the order's events say. */
  function Retold(steps: seq<Step>, o: Order, other: seq<Columns>): seq<Step> {
    if |steps| == 0 then []
    else
      var before := steps[..|steps| - 1];
      Retold(before, o, other) + [RetoldStep(After(before), steps[|steps| - 1], o, other)]
  }

  /** Everything but what the events of the order say. */
  ghost predicate SameSchedule(s: State, s': State, o: Order) {
    && s'.outbox == s.outbox && s'.batch == s.batch && s'.sent == s.sent && s'.topic == s.topic
    && s'.committed == s.committed && s'.position == s.position && s'.marked == s.marked && s'.clean == s.clean
    && s'.staged.Keys == s.staged.Keys && |StagedOf(s', o)| == |StagedOf(s, o)|
    && (forall p :: p in s.staged && p != o ==> s'.staged[p] == s.staged[p])
  }

  ghost predicate Tells(s: State, o: Order, other: seq<Columns>) {
    && |StagedOf(s, o)| <= |other|
    && forall n :: 0 <= n < |StagedOf(s, o)| ==> Own(StagedOf(s, o)[n]) == other[n]
  }

  lemma SameStage(s: State, s': State, p: Order, e: Facts.Event, e': Facts.Event, at: nat, o: Order)
    requires SameSchedule(s, s', o) && Enabled(s, Stage(p, e, at)) && Enabled(s', Stage(p, e', at)) && (p != o ==> e == e')
    ensures SameSchedule(Next(s, Stage(p, e, at)), Next(s', Stage(p, e', at)), o)
  {
    assert |StagedOf(s, p)| == |StagedOf(s', p)|;
    assert p != o ==> StagedOf(s, p) == StagedOf(s', p);
  }

  lemma SameOther(s: State, s': State, step: Step, o: Order)
    requires SameSchedule(s, s', o) && !step.Stage?
    ensures SameSchedule(Next(s, step), Next(s', step), o)
  {
    match step {
      case PollSelect(_) =>
      case PollSend =>
      case PollMark =>
      case _ =>
    }
  }

  lemma RetoldKeeps(s: State, s': State, step: Step, o: Order, other: seq<Columns>)
    requires SameSchedule(s, s', o) && Tells(s', o, other) && |StagedOf(Next(s, step), o)| <= |other|
    ensures var step' := RetoldStep(s, step, o, other);
            && SameSchedule(Next(s, step), Next(s', step'), o) && Tells(Next(s', step'), o, other)
            && (Writes(s, step) <==> Writes(s', step'))
  {
    var step' := RetoldStep(s, step, o, other);
    if step.Stage? {
      if Enabled(s, step) {
        SameStage(s, s', step.order, step.event, step'.event, step.at, o);
      }
    } else {
      SameOther(s, s', step, o);
    }
  }

  lemma {:induction false} RetoldIsTheSameSchedule(steps: seq<Step>, o: Order, other: seq<Columns>)
    requires |StagedOf(After(steps), o)| <= |other|
    ensures SameSchedule(After(steps), After(Retold(steps, o, other)), o)
    ensures Tells(After(Retold(steps, o, other)), o, other)
    ensures WrittenOf(Retold(steps, o, other), o) == WrittenOf(steps, o)
  {
    if |steps| > 0 {
      var before, step := steps[..|steps| - 1], steps[|steps| - 1];
      var s, retold := After(before), Retold(before, o, other);
      StagedOnlyGrows(s, step, o);
      RetoldIsTheSameSchedule(before, o, other);
      RetoldKeeps(s, After(retold), step, o, other);
      var step' := RetoldStep(s, step, o, other);
      FromStep(EMPTY, retold, step');
      assert (retold + [step'])[..|retold|] == retold;
    }
  }

  lemma StagedOnlyGrows(s: State, step: Step, o: Order)
    ensures |StagedOf(s, o)| <= |StagedOf(Next(s, step), o)|
  {
  }

  /** What the row of the retold run is. */
  lemma {:induction false} RetoldRow(steps: seq<Step>, o: Order, other: seq<Columns>)
    requires |other| == |StagedOf(After(steps), o)|
    ensures var s' := After(Retold(steps, o, other));
            Source(StagedOf(s', o)) == other && Facts.Get(s'.facts, o) == Merge(Pick(other, WrittenOf(steps, o)))
  {
    var s' := After(Retold(steps, o, other));
    RetoldIsTheSameSchedule(steps, o, other);
    RowIsWhatWasWritten(Retold(steps, o, other), o);
    assert Source(StagedOf(s', o)) == other;
  }

  /** The exact condition on a schedule: every run of it, whatever the events of the
      order say, ends with the merge as the order's row iff every event of the order
      was written and their last times are in staging order. */
  lemma {:induction false} RowIsTheMergeIffInOrder(steps: seq<Step>, o: Order)
    ensures var size := |StagedOf(After(steps), o)|;
            InOrder(WrittenOf(steps, o), size) <==>
            forall other: seq<Columns> :: |other| == size ==>
              Facts.Get(After(Retold(steps, o, other)).facts, o) == Merge(other)
  {
    var h, size := WrittenOf(steps, o), |StagedOf(After(steps), o)|;
    if InOrder(h, size) {
      forall other: seq<Columns> | |other| == size
        ensures Facts.Get(After(Retold(steps, o, other)).facts, o) == Merge(other)
      {
        RetoldRow(steps, o, other);
        InOrderMerges(other, h);
      }
    } else {
      var other := OutOfOrderLoses(h, size);
      RetoldRow(steps, o, other);
    }
  }

  /** In particular the run itself. */
  lemma {:induction false} InOrderRunsMerge(steps: seq<Step>, o: Order)
    requires InOrder(WrittenOf(steps, o), |StagedOf(After(steps), o)|)
    ensures Facts.Get(After(steps).facts, o) == Merge(Source(StagedOf(After(steps), o)))
  {
    RowIsWhatWasWritten(steps, o);
    InOrderMerges(Source(StagedOf(After(steps), o)), WrittenOf(steps, o));
  }

  // ── what staging order depends on ──

  /** What the poller sorts by: the writer's clock, then the row's random id. */
  datatype Stamp = Stamp(occurredAt: int, id: int)

  predicate Before(a: Stamp, b: Stamp) {
    a.occurredAt < b.occurredAt || (a.occurredAt == b.occurredAt && a.id < b.id)
  }

  predicate Sorted(stamps: seq<Stamp>) { forall i, j :: 0 <= i < j < |stamps| ==> Before(stamps[i], stamps[j]) }

  /** Where a new stamp sorts among the others. */
  function Place(stamps: seq<Stamp>, stamp: Stamp): (at: nat)
    ensures at <= |stamps|
  {
    if |stamps| == 0 || !Before(stamps[0], stamp) then 0 else 1 + Place(stamps[1..], stamp)
  }

  lemma {:induction false} PlaceSplits(stamps: seq<Stamp>, stamp: Stamp)
    requires Sorted(stamps)
    ensures forall i :: 0 <= i < |stamps| ==> (Before(stamps[i], stamp) <==> i < Place(stamps, stamp))
  {
    if |stamps| > 0 {
      var rest := stamps[1..];
      assert forall i :: 0 <= i < |rest| ==> rest[i] == stamps[i + 1];
      if Before(stamps[0], stamp) {
        PlaceSplits(rest, stamp);
        forall i | 0 <= i < |stamps| ensures Before(stamps[i], stamp) <==> i < Place(stamps, stamp) {
          assert i > 0 ==> stamps[i] == rest[i - 1];
        }
      } else {
        assert forall i :: 0 < i < |stamps| ==> Before(stamps[0], stamps[i]);
      }
    }
  }

  /** An event is staged in order iff its stamp comes after those of all rows of its
      order: a clock that stands still or runs behind leaves it to the ids, or to
      nobody. */
  lemma StampsDecide(s: State, o: Order, e: Facts.Event, stamps: seq<Stamp>, stamp: Stamp)
    requires |stamps| == |s.outbox| && Sorted(stamps) && (e.Lifecycle? ==> e.order == o)
    ensures InOrderStep(s, Stage(o, e, Place(stamps, stamp))) <==>
            forall i :: 0 <= i < |s.outbox| && s.outbox[i].order == o ==> Before(stamps[i], stamp)
  {
    PlaceSplits(stamps, stamp);
  }

  // ── the runs that show it ──

  lemma Go(steps: seq<Step>, s: State, step: Step) returns (steps': seq<Step>, s': State)
    requires After(steps) == s
    ensures steps' == steps + [step] && s' == Next(s, step) && After(steps') == s'
  {
    steps', s' := steps + [step], Next(s, step);
    FromStep(EMPTY, steps, step);
  }

  /** One undisturbed pass over a backlog. */
  lemma Publish(steps: seq<Step>, s: State) returns (steps': seq<Step>, s': State)
    requires After(steps) == s && s.batch == [] && Unpublished(s.outbox) != []
    ensures After(steps') == s' && steps <= steps' && s'.topic == s.topic + Unpublished(s.outbox)
    ensures s'.staged == s.staged && s'.facts == s.facts && s'.position == s.position
    ensures forall i :: 0 <= i < |s'.outbox| ==> s'.outbox[i].published
  {
    var rows := Unpublished(s.outbox);
    var pass := PassSteps(s, |rows|, |rows|, PollMark);
    FromSplits(EMPTY, steps, pass);
    steps', s' := steps + pass, From(s, pass);
    MarkingAllPublishesAll(s.outbox);
  }

  lemma UnpublishedStep(rows: seq<OutboxRow>, o: Order, n: nat)
    ensures Unpublished(rows + [OutboxRow(o, n, false)]) == Unpublished(rows) + [Record(o, n)]
  {
    assert (rows + [OutboxRow(o, n, false)])[..|rows|] == rows;
  }

  /** A published backlog of two rows of one order, the younger one in front. */
  lemma ToSkewed(o: Order, first: Columns, second: Columns) returns (steps: seq<Step>, s: State)
    ensures After(steps) == s && s.facts == map[] && s.position == 0 && s.topic == [Record(o, 1), Record(o, 0)]
    ensures StagedOf(s, o) == [Facts.Lifecycle(o, first), Facts.Lifecycle(o, second)]
    ensures forall i :: 0 <= i < |s.outbox| ==> s.outbox[i].published
  {
    steps, s := [], EMPTY;
    steps, s := Go(steps, s, Stage(o, Facts.Lifecycle(o, first), 0));
    steps, s := Go(steps, s, Stage(o, Facts.Lifecycle(o, second), 0));
    UnpublishedStep([], o, 1);
    UnpublishedStep([OutboxRow(o, 1, false)], o, 0);
    assert s.outbox == [] + [OutboxRow(o, 1, false)] + [OutboxRow(o, 0, false)];
    steps, s := Publish(steps, s);
  }

  lemma GoHandle(steps: seq<Step>, s: State, o: Order, columns: Columns) returns (steps': seq<Step>, s': State)
    requires After(steps) == s && s.position < |s.topic|
    requires EventOf(s, s.topic[s.position]) == Facts.Lifecycle(o, columns)
    ensures steps' == steps + [Handle] && After(steps') == s'
    ensures s'.staged == s.staged && s'.outbox == s.outbox && s'.topic == s.topic && s'.position == s.position + 1
    ensures Facts.Get(s'.facts, o) == Facts.Get(s.facts, o) + columns
  {
    steps', s' := Go(steps, s, Handle);
  }

  lemma OneEventMerges(o: Order, columns: Columns)
    ensures Merge(Source([Facts.Lifecycle(o, columns)])) == columns
  {
    assert Source([Facts.Lifecycle(o, columns)]) == [] + [columns];
    MergeStep([], columns);
  }

  lemma TwoEventsMerge(o: Order, first: Columns, second: Columns)
    ensures Merge(Source([Facts.Lifecycle(o, first), Facts.Lifecycle(o, second)])) == first + second
  {
    var one := Source([Facts.Lifecycle(o, first)]);
    assert Source([Facts.Lifecycle(o, first), Facts.Lifecycle(o, second)]) == one + [second];
    OneEventMerges(o, first);
    MergeStep(one, second);
  }

  /** Two writers' clocks: the later event carries the earlier stamp, is published and
      handled first, and the older event overwrites it. */
  lemma SkewedClocksReorder(o: Order, first: Columns, second: Columns) returns (steps: seq<Step>)
    requires first + second != second + first
    ensures Drained(After(steps)) && StagedOf(After(steps), o) == [Facts.Lifecycle(o, first), Facts.Lifecycle(o, second)]
    ensures Facts.Get(After(steps).facts, o) == second + first != Merge(Source(StagedOf(After(steps), o)))
  {
    var s;
    steps, s := ToSkewed(o, first, second);
    steps, s := GoHandle(steps, s, o, second);
    steps, s := GoHandle(steps, s, o, first);
    TwoEventsMerge(o, first, second);
  }

  /** A published backlog of one row. */
  lemma ToPublished(o: Order, columns: Columns) returns (steps: seq<Step>, s: State)
    ensures After(steps) == s && s.facts == map[] && s.position == 0 && s.topic == [Record(o, 0)]
    ensures StagedOf(s, o) == [Facts.Lifecycle(o, columns)]
    ensures forall i :: 0 <= i < |s.outbox| ==> s.outbox[i].published
  {
    steps, s := [], EMPTY;
    steps, s := Go(steps, s, Stage(o, Facts.Lifecycle(o, columns), 0));
    UnpublishedStep([], o, 0);
    assert s.outbox == [] + [OutboxRow(o, 0, false)];
    steps, s := Publish(steps, s);
  }

  /** Giving up is not harmless: the run drains, and what the event had to say is
      missing from the row. */
  lemma GivingUpLosesTheEvent(o: Order, columns: Columns) returns (steps: seq<Step>)
    requires columns != map[]
    ensures Drained(After(steps)) && StagedOf(After(steps), o) == [Facts.Lifecycle(o, columns)]
    ensures Facts.Get(After(steps).facts, o) == map[] != Merge(Source(StagedOf(After(steps), o)))
  {
    var s;
    steps, s := ToPublished(o, columns);
    steps, s := Go(steps, s, GiveUp);
    OneEventMerges(o, columns);
  }

  /** A call that commits and raises is not lost when it is given up: the row has the
      event all the same. */
  lemma RaisedAndGivenUpIsWritten(o: Order, columns: Columns) returns (steps: seq<Step>)
    ensures Drained(After(steps)) && StagedOf(After(steps), o) == [Facts.Lifecycle(o, columns)] && GiveUp in steps
    ensures Facts.Get(After(steps).facts, o) == Merge(Source(StagedOf(After(steps), o)))
  {
    var s;
    steps, s := ToPublished(o, columns);
    steps, s := Go(steps, s, HandleRaises);
    steps, s := Go(steps, s, GiveUp);
    OneEventMerges(o, columns);
  }
}
