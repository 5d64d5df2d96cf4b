/** The content studio: the draft rows, the guarded moves on them, the human actions
    built from a read, a guarded write and a second read, and the job shell. Every
    statement is atomic; between any two of them other clients may run theirs. */
module Drafts {
  import opened Options

  type Id = string

  datatype Kind = MenuCopy | FeedbackSummary

  datatype Status = Queued | Parked | Drafted | Published | Rejected

  datatype Row = Row(
    restaurant: string,
    brand: Option<string>,
    kind: Kind,
    status: Status,
    content: Option<string>,
    published: Option<string>,
    error: Option<string>,
    decidedBy: Option<string>)

  type Table = map<Id, Row>

  // ── the statements ──

  datatype Act =
    | Create(id: Id, restaurant: string, brand: Option<string>, kind: Kind)
    | Complete(id: Id, content: string)
    | Park(id: Id, error: string)
    | Publish(id: Id, text: string, who: string)
    | Reject(id: Id, who: string)
    | Requeue(id: Id)

  function Expected(a: Act): Status {
    match a
    case Create(_, _, _, _) => Queued
    case Complete(_, _) => Queued
    case Park(_, _) => Queued
    case Publish(_, _, _) => Drafted
    case Reject(_, _) => Drafted
    case Requeue(_) => Parked
  }

  function Shorten(error: string): string { if |error| <= 500 then error else error[..500] }

  /** An error is kept up to 500 characters of it. */
  lemma ShortenKeeps(error: string)
    ensures Shorten(error) <= error && |Shorten(error)| == if |error| < 500 then |error| else 500
  {
  }

  function Rewritten(row: Row, a: Act): Row {
    match a
    case Create(_, _, _, _) => row
    case Complete(_, content) => row.(status := Drafted, content := Some(content), error := None)
    case Park(_, error) => row.(status := Parked, error := Some(Shorten(error)))
    case Publish(_, text, who) => row.(status := Published, published := Some(text), decidedBy := Some(who))
    case Reject(_, who) => row.(status := Rejected, decidedBy := Some(who))
    case Requeue(_) => row.(status := Queued, error := None)
  }

  /** Does the guarded UPDATE match? A summary is never offered for publication: the
      kind is read before the write and no statement changes it. */
  predicate Matches(t: Table, a: Act) {
    a.id in t && !a.Create? && t[a.id].status == Expected(a) && !(a.Publish? && t[a.id].kind.FeedbackSummary?)
  }

  /** Ids are minted: creating under an id that exists does not happen. */
  function Do(t: Table, a: Act): Table {
    if a.Create? then
      if a.id in t then t else t[a.id := Row(a.restaurant, a.brand, a.kind, Queued, None, None, None, None)]
    else if Matches(t, a) then t[a.id := Rewritten(t[a.id], a)]
    else t
  }

  function Run(t: Table, acts: seq<Act>): Table {
    if |acts| == 0 then t else Do(Run(t, acts[..|acts| - 1]), acts[|acts| - 1])
  }

  // ── what every history keeps ──

  ghost predicate RowOk(r: Row) {
    && (r.content.Some? <==> r.status in {Drafted, Published, Rejected})
    && (r.published.Some? <==> r.status.Published?)
    && (r.decidedBy.Some? <==> r.status in {Published, Rejected})
    && (r.error.Some? <==> r.status.Parked?)
    && (r.kind.FeedbackSummary? ==> !r.status.Published?)
  }

  ghost predicate TableOk(t: Table) { forall id :: id in t ==> RowOk(t[id]) }

  /** What any later state of a row may look like: a decision is final to the last
      column, the text of a draft is fixed, and the owner and kind never change. */
  ghost predicate Later(r: Row, r': Row) {
    && r'.restaurant == r.restaurant && r'.brand == r.brand && r'.kind == r.kind
    && (r.status in {Published, Rejected} ==> r' == r)
    && (r.status.Drafted? ==> r'.content == r.content && r'.status in {Drafted, Published, Rejected})
  }

  ghost predicate AllLater(t: Table, t': Table) {
    forall id :: id in t ==> id in t' && Later(t[id], t'[id])
  }

  lemma DoKeeps(t: Table, a: Act)
    requires TableOk(t)
    ensures TableOk(Do(t, a)) && AllLater(t, Do(t, a))
  {
  }

  lemma {:induction false} RunKeeps(t: Table, acts: seq<Act>)
    requires TableOk(t)
    ensures TableOk(Run(t, acts)) && AllLater(t, Run(t, acts))
  {
    if |acts| > 0 {
      var before := Run(t, acts[..|acts| - 1]);
      RunKeeps(t, acts[..|acts| - 1]);
      DoKeeps(before, acts[|acts| - 1]);
      forall id | id in t ensures Later(t[id], Run(t, acts)[id]) {
        assert Later(t[id], before[id]) && Later(before[id], Run(t, acts)[id]);
      }
    }
  }

  /** Published and rejected are final, and no text changes once drafted, whoever does
      what in whatever order afterwards. */
  lemma DecisionsAreFinal(t: Table, acts: seq<Act>, id: Id)
    requires TableOk(t) && id in t
    ensures id in Run(t, acts)
    ensures t[id].status in {Published, Rejected} ==> Run(t, acts)[id] == t[id]
    ensures t[id].content.Some? ==> Run(t, acts)[id].content == t[id].content
  {
    RunKeeps(t, acts);
  }

  // ── parks and replays ──

  function Hits(t: Table, acts: seq<Act>, id: Id, which: Act -> bool): nat {
    if |acts| == 0 then 0
    else
      var before, last := acts[..|acts| - 1], acts[|acts| - 1];
      Hits(t, before, id, which) + if last.id == id && which(last) && Matches(Run(t, before), last) then 1 else 0
  }

  predicate InStatus(t: Table, id: Id, status: Status) { id in t && t[id].status == status }

  function IsParked(t: Table, id: Id): nat { if id in t && t[id].status.Parked? then 1 else 0 }

  /** Each park allows one replay: however many clicks race, the replays that go
      through never outnumber the parks. */
  lemma {:induction false} OneReplayPerPark(t: Table, acts: seq<Act>, id: Id)
    ensures Hits(t, acts, id, (a: Act) => a.Park?) + IsParked(t, id)
         == Hits(t, acts, id, (a: Act) => a.Requeue?) + IsParked(Run(t, acts), id)
  {
    if |acts| > 0 {
      OneReplayPerPark(t, acts[..|acts| - 1], id);
    }
  }

  // ── absent a replay, nobody puts a row back into the queue ──

  predicate NoReplay(acts: seq<Act>, id: Id) { forall i :: 0 <= i < |acts| ==> acts[i] != Requeue(id) }

  /** A row that has left the queue stays out of it. */
  lemma {:induction false} StaysOut(t: Table, acts: seq<Act>, id: Id)
    requires id in t && !t[id].status.Queued? && NoReplay(acts, id)
    ensures id in Run(t, acts) && !Run(t, acts)[id].status.Queued?
  {
    if |acts| > 0 {
      StaysOut(t, acts[..|acts| - 1], id);
    }
  }

  // ── the human actions ──

  datatype Claim = Claim(restaurant: Option<string>, brand: Option<string>)

  predicate Owns(c: Claim, r: Row) {
    (c.restaurant.Some? && c.restaurant.value == r.restaurant) || (c.brand.Some? && c.brand == r.brand)
  }

  datatype Outcome<+T> = Ok(value: T) | NotFound | WrongState(status: Status) | WrongKind

  class DraftStore {
    var rows: Table

    constructor ()
      ensures rows == map[] && TableOk(rows)
    {
      rows := map[];
    }

    method Get(id: Id, claim: Claim) returns (r: Outcome<Row>)
      ensures r == if id in rows && Owns(claim, rows[id]) then Ok(rows[id]) else NotFound
      // a branch's own rows, and a brand's rows of any branch
      ensures r.Ok? <==> id in rows && (claim.restaurant == Some(rows[id].restaurant)
                                        || (rows[id].brand.Some? && claim.brand == rows[id].brand))
    {
      if id !in rows || !Owns(claim, rows[id]) {
        return NotFound;
      }
      r := Ok(rows[id]);
    }

    /** The guarded UPDATE: whether it matched, and nothing changes if not. */
    method Move(a: Act) returns (matched: bool)
      requires !a.Create?
      modifies this
      ensures matched == Matches(old(rows), a) && rows == Do(old(rows), a)
    {
      if a.id !in rows {
        return false;
      }
      var row := rows[a.id];
      match a {
        case Complete(id, content) =>
          matched := row.status.Queued?;
          if matched {
            rows := rows[id := row.(status := Drafted, content := Some(content), error := None)];
          }
        case Park(id, error) =>
          matched := row.status.Queued?;
          if matched {
            rows := rows[id := row.(status := Parked, error := Some(Shorten(error)))];
          }
        case Publish(id, text, who) =>
          matched := row.status.Drafted? && row.kind.MenuCopy?;
          if matched {
            rows := rows[id := row.(status := Published, published := Some(text), decidedBy := Some(who))];
          }
        case Reject(id, who) =>
          matched := row.status.Drafted?;
          if matched {
            rows := rows[id := row.(status := Rejected, decidedBy := Some(who))];
          }
        case Requeue(id) =>
          matched := row.status.Parked?;
          if matched {
            rows := rows[id := row.(status := Queued, error := None)];
          }
      }
    }

    /** Statements of other clients. */
    method Others(acts: seq<Act>)
      modifies this
      ensures rows == Run(old(rows), acts)
    {
      for i := 0 to |acts|
        invariant rows == Run(old(rows), acts[..i])
      {
        assert acts[..i + 1][..i] == acts[..i];
        rows := Do(rows, acts[i]);
      }
      assert acts[..|acts|] == acts;
    }

    /** A human action's write, with whatever other clients do before and after it. */
    method MoveAmid(a: Act, gap: seq<Act>, gap': seq<Act>) returns (matched: bool)
      requires TableOk(rows) && !a.Create?
      modifies this
      ensures TableOk(rows) && AllLater(old(rows), rows)
      ensures matched == Matches(Run(old(rows), gap), a)
      ensures AllLater(Do(Run(old(rows), gap), a), rows)
    {
      RunKeeps(rows, gap);
      Others(gap);
      DoKeeps(rows, a);
      matched := Move(a);
      RunKeeps(rows, gap');
      Others(gap');
    }

    /** Approve. A normal return means exactly that text is published, whatever ran
        between the statements; a refusal means this call published nothing. */
    method Approve(id: Id, claim: Claim, text: string, who: string, gap: seq<Act>, gap': seq<Act>)
      returns (r: Outcome<Row>)
      requires TableOk(rows)
      modifies this
      ensures TableOk(rows) && AllLater(old(rows), rows)
      ensures r.NotFound? <==> !(id in old(rows) && Owns(claim, old(rows)[id]))
      ensures r.Ok? ==> id in rows && rows[id] == r.value && r.value.status.Published? && r.value.published == Some(text)
      ensures r.Ok? && !old(rows)[id].status.Published? ==> r.value.decidedBy == Some(who)
      ensures r.WrongKind? ==> old(rows)[id].kind.FeedbackSummary?
      ensures id in old(rows) && Owns(claim, old(rows)[id]) ==>
                (r.Ok? <==> || (old(rows)[id].status.Published? && old(rows)[id].published == Some(text))
                            || (InStatus(old(rows), id, Drafted) && old(rows)[id].kind.MenuCopy?
                                && InStatus(Run(old(rows), gap), id, Drafted)))
    {
      r := Get(id, claim);
      if r.NotFound? {
        return;
      }
      var row := r.value;
      if row.status.Published? && row.published == Some(text) {
        return;
      }
      if !row.status.Drafted? {
        return WrongState(row.status);
      }
      if row.kind.FeedbackSummary? {
        return WrongKind;
      }
      RunKeeps(rows, gap);
      var matched := MoveAmid(Publish(id, text, who), gap, gap');
      var again := Get(id, claim);
      r := if !matched then WrongState(again.value.status) else again;
    }

    /** Reject. A normal return means the row is rejected, by this call or before. */
    method Refuse(id: Id, claim: Claim, who: string, gap: seq<Act>, gap': seq<Act>) returns (r: Outcome<()>)
      requires TableOk(rows)
      modifies this
      ensures TableOk(rows) && AllLater(old(rows), rows)
      ensures r.NotFound? <==> !(id in old(rows) && Owns(claim, old(rows)[id]))
      ensures r.Ok? ==> id in rows && rows[id].status.Rejected?
      ensures r.Ok? && !old(rows)[id].status.Rejected? ==> rows[id].decidedBy == Some(who)
      ensures id in old(rows) && Owns(claim, old(rows)[id]) ==>
                (r.Ok? <==> || InStatus(old(rows), id, Rejected)
                            || (InStatus(old(rows), id, Drafted) && InStatus(Run(old(rows), gap), id, Drafted)))
    {
      var read := Get(id, claim);
      if read.NotFound? {
        return NotFound;
      }
      if read.value.status.Rejected? {
        return Ok(());
      }
      if !read.value.status.Drafted? {
        return WrongState(read.value.status);
      }
      RunKeeps(rows, gap);
      var matched := MoveAmid(Reject(id, who), gap, gap');
      r := if matched then Ok(()) else WrongState(rows[id].status);
    }

    /** Replay. A normal return means this call alone took the row from parked to
        queued. */
    method Replay(id: Id, claim: Claim, gap: seq<Act>) returns (r: Outcome<()>)
      requires TableOk(rows)
      modifies this
      ensures TableOk(rows) && AllLater(old(rows), rows)
      ensures r.NotFound? <==> !(id in old(rows) && Owns(claim, old(rows)[id]))
      ensures r.Ok? ==> && Matches(Run(old(rows), gap), Requeue(id))
                        && rows == Run(old(rows), gap)[id := Rewritten(Run(old(rows), gap)[id], Requeue(id))]
      ensures !r.Ok? ==> rows == old(rows) || rows == Run(old(rows), gap)
      ensures id in old(rows) && Owns(claim, old(rows)[id]) ==>
                (r.Ok? <==> InStatus(old(rows), id, Parked) && InStatus(Run(old(rows), gap), id, Parked))
    {
      var read := Get(id, claim);
      if read.NotFound? {
        return NotFound;
      }
      if !read.value.status.Parked? {
        return WrongState(read.value.status);
      }
      RunKeeps(rows, gap);
      Others(gap);
      DoKeeps(rows, Requeue(id));
      var matched := Move(Requeue(id));
      r := if matched then Ok(()) else WrongState(rows[id].status);
    }
  }

  // ── generating one draft ──

  /** What the generator answers to a draft request. */
  datatype Generated = Text(text: string) | Declines | ProviderDown | Refuses(why: string) | Breaks(why: string)

  /** A database write: it lands, or it raises with or without having landed. */
  datatype Write = Lands | Raises(landed: bool)

  /** Everything one execution of the job meets. */
  datatype Answers = Answers(
    shed: Option<string>,
    loads: bool,
    configured: bool,
    generated: Generated,
    completes: Write,
    parks: Write,
    beforeLoad: seq<Act>,
    beforeComplete: seq<Act>,
    beforePark: seq<Act>)

  datatype Failure = Permanent(why: string) | Provider | Unexpected(why: string)

  /** How a body that returns has found or left the row. */
  datatype End = Already(status: Status) | DraftedNow | Superseded

  datatype Body = Returned(end: End) | Fails(failure: Failure)

  /** Which failures retry and which park. */
  function Judge(g: Generated, unsupportable: string -> bool): Option<Failure> {
    match g
    case ProviderDown => Some(Provider)
    case Refuses(why) => Some(Permanent(why))
    case Breaks(why) => Some(Permanent("draft generation failed: " + why))
    case Declines => Some(Permanent("the model declined to write this copy"))
    case Text(text) => if unsupportable(text) then Some(Permanent("unsupportable claim")) else None
  }

  /** How the body ends, given the table as it stood at the load and at the write. */
  function BodyEnd(loaded: Table, written: Table, id: Id, a: Answers, unsupportable: string -> bool): Body {
    var judged := Judge(a.generated, unsupportable);
    if !a.loads || id !in loaded then Fails(Unexpected("no draft row"))
    else if !loaded[id].status.Queued? then Returned(Already(loaded[id].status))
    else if !a.configured then Fails(Permanent("no model provider is configured for drafting"))
    else if judged.Some? then Fails(judged.value)
    else if a.completes.Raises? then Fails(Unexpected("the database did not answer"))
    else Returned(if InStatus(written, id, Queued) then DraftedNow else Superseded)
  }

  /** Does the body get as far as its write? */
  predicate Writes(loaded: Table, id: Id, a: Answers, unsupportable: string -> bool) {
    a.loads && InStatus(loaded, id, Queued) && a.configured && Judge(a.generated, unsupportable).None?
  }

  /** The statements an execution's body runs, its own and the others'. */
  function BodyActs(loaded: Table, id: Id, a: Answers, unsupportable: string -> bool): seq<Act> {
    if Writes(loaded, id, a, unsupportable) && a.generated.Text?
    then a.beforeComplete + if a.completes == Raises(false) then [] else [Complete(id, a.generated.text)]
    else []
  }

  /** Load, generate, settle: the body of the job. */
  method RunDraft(store: DraftStore, id: Id, a: Answers, unsupportable: string -> bool) returns (r: Body)
    modifies store
    ensures var loaded := Run(old(store.rows), a.beforeLoad);
            && r == BodyEnd(loaded, Run(loaded, a.beforeComplete), id, a, unsupportable)
            && store.rows == Run(loaded, BodyActs(loaded, id, a, unsupportable))
  {
    store.Others(a.beforeLoad);
    if !a.loads || id !in store.rows {
      return Fails(Unexpected("no draft row"));
    }
    if !store.rows[id].status.Queued? {
      return Returned(Already(store.rows[id].status));
    }
    if !a.configured {
      return Fails(Permanent("no model provider is configured for drafting"));
    }
    var judged := Judge(a.generated, unsupportable);
    if judged.Some? {
      return Fails(judged.value);
    }
    store.Others(a.beforeComplete);
    var write := Complete(id, a.generated.text);
    assert (a.beforeComplete + [write])[..|a.beforeComplete|] == a.beforeComplete;
    assert a.beforeComplete + [] == a.beforeComplete;
    var matched := false;
    if a.completes != Raises(false) {
      matched := store.Move(write);
    }
    if a.completes.Raises? {
      return Fails(Unexpected("the database did not answer"));
    }
    r := Returned(if matched then DraftedNow else Superseded);
  }

  // ── the job shell ──

  /** `Done(None)` is the job that parked its row. */
  datatype Job = Done(end: Option<End>) | Retry | Escaped

  /** Which sentence the row is parked with, if the execution parks it. */
  function ParkReason(a: Answers, body: Body, retries: nat, maxRetries: int): Option<string> {
    if a.shed.Some? then a.shed
    else match body
      case Returned(_) => None
      case Fails(Permanent(why)) => Some(why)
      case Fails(Provider) => if retries >= maxRetries then Some("provider unavailable") else None
      case Fails(Unexpected(why)) => Some("the job failed unexpectedly: " + why)
  }

  function BodyOf(t: Table, id: Id, a: Answers, unsupportable: string -> bool): Body {
    var loaded := Run(t, a.beforeLoad);
    BodyEnd(loaded, Run(loaded, a.beforeComplete), id, a, unsupportable)
  }

  /** The table when the execution comes to park, or ends without parking. */
  function Worked(t: Table, id: Id, a: Answers, unsupportable: string -> bool): Table {
    if a.shed.Some? then t
    else
      var loaded := Run(t, a.beforeLoad);
      Run(loaded, BodyActs(loaded, id, a, unsupportable))
  }

  function JobEnd(t: Table, id: Id, a: Answers, unsupportable: string -> bool, retries: nat, maxRetries: int): Job {
    var body := BodyOf(t, id, a, unsupportable);
    if ParkReason(a, body, retries, maxRetries).Some? then if a.parks.Raises? then Escaped else Done(None)
    else match body
      case Returned(end) => Done(Some(end))
      case Fails(_) => Retry
  }

  function JobTable(t: Table, id: Id, a: Answers, unsupportable: string -> bool, retries: nat, maxRetries: int): Table {
    var reason := ParkReason(a, BodyOf(t, id, a, unsupportable), retries, maxRetries);
    var worked := Worked(t, id, a, unsupportable);
    if reason.None? then worked
    else if a.parks == Raises(false) then Run(worked, a.beforePark)
    else Do(Run(worked, a.beforePark), Park(id, reason.value))
  }

  method ParkRow(store: DraftStore, id: Id, error: string, a: Answers) returns (ok: bool)
    modifies store
    ensures ok == a.parks.Lands?
    ensures store.rows == if a.parks == Raises(false) then Run(old(store.rows), a.beforePark)
                          else Do(Run(old(store.rows), a.beforePark), Park(id, error))
  {
    store.Others(a.beforePark);
    if a.parks != Raises(false) {
      var _ := store.Move(Park(id, error));
    }
    ok := a.parks.Lands?;
  }

  /** One execution of the job. */
  method RunJob(store: DraftStore, id: Id, a: Answers, unsupportable: string -> bool, retries: nat, maxRetries: int)
    returns (r: Job)
    modifies store
    ensures r == JobEnd(old(store.rows), id, a, unsupportable, retries, maxRetries)
    ensures store.rows == JobTable(old(store.rows), id, a, unsupportable, retries, maxRetries)
  {
    var ok: bool;
    if a.shed.Some? {
      ok := ParkRow(store, id, a.shed.value, a);
      return if ok then Done(None) else Escaped;
    }
    var body := RunDraft(store, id, a, unsupportable);
    match body {
      case Returned(end) =>
        return Done(Some(end));
      case Fails(Permanent(why)) =>
        ok := ParkRow(store, id, why, a);
      case Fails(Provider) =>
        if retries < maxRetries {
          return Retry;
        }
        ok := ParkRow(store, id, "provider unavailable", a);
      case Fails(Unexpected(why)) =>
        ok := ParkRow(store, id, "the job failed unexpectedly: " + why, a);
    }
    r := if ok then Done(None) else Escaped;
  }

  lemma {:induction false} Remains(t: Table, acts: seq<Act>, id: Id)
    requires id in t
    ensures id in Run(t, acts)
  {
    if |acts| > 0 {
      Remains(t, acts[..|acts| - 1], id);
    }
  }

  /** A body that returns has left the queue behind. */
  lemma BodySettles(t: Table, id: Id, a: Answers, unsupportable: string -> bool)
    requires id in t && a.shed.None? && BodyOf(t, id, a, unsupportable).Returned?
    ensures id in Worked(t, id, a, unsupportable) && !Worked(t, id, a, unsupportable)[id].status.Queued?
  {
    var loaded := Run(t, a.beforeLoad);
    Remains(t, a.beforeLoad, id);
    if loaded[id].status.Queued? {
      CompleteSettles(loaded, a.beforeComplete, id, a.generated.text);
    }
  }

  lemma CompleteSettles(t: Table, acts: seq<Act>, id: Id, content: string)
    requires id in t
    ensures id in Run(t, acts + [Complete(id, content)]) && !Run(t, acts + [Complete(id, content)])[id].status.Queued?
  {
    Remains(t, acts, id);
    RunStep(t, acts, Complete(id, content));
  }

  lemma RunStep(t: Table, acts: seq<Act>, act: Act)
    ensures Run(t, acts + [act]) == Do(Run(t, acts), act)
  {
    assert (acts + [act])[..|acts|] == acts;
  }

  /** An execution that ends without a retry leaves the row queued only when its own
      park raised. */
  lemma JobSettles(t: Table, id: Id, a: Answers, unsupportable: string -> bool, retries: nat, maxRetries: int)
    requires id in t && JobEnd(t, id, a, unsupportable, retries, maxRetries).Done?
    ensures InStatus(JobTable(t, id, a, unsupportable, retries, maxRetries), id, Queued) == false
  {
    var worked := Worked(t, id, a, unsupportable);
    var reason := ParkReason(a, BodyOf(t, id, a, unsupportable), retries, maxRetries);
    if reason.None? {
      BodySettles(t, id, a, unsupportable);
    }
  }

  /** Left to itself, an execution that is not retried leaves a queued row queued iff
      it had to park, its park did not land, and the draft had not landed either. */
  lemma StuckIff(t: Table, id: Id, a: Answers, unsupportable: string -> bool, retries: nat, maxRetries: int)
    requires InStatus(t, id, Queued) && a.beforeLoad == a.beforeComplete == a.beforePark == []
    requires !JobEnd(t, id, a, unsupportable, retries, maxRetries).Retry?
    ensures var generates := a.shed.None? && a.loads && a.configured && a.generated.Text? && !unsupportable(a.generated.text);
            InStatus(JobTable(t, id, a, unsupportable, retries, maxRetries), id, Queued)
            <==> a.parks == Raises(false) && !(generates && a.completes != Raises(false))
  {
    if a.shed.None? && Writes(t, id, a, unsupportable) && a.completes != Raises(false) {
      var write := Complete(id, a.generated.text);
      assert [] + [write] == [write] && [write][..0] == [];
    }
  }

  /** Left to itself, an execution drafts a queued row iff nothing was in the way of a
      text that can be supported and its write landed; the row then holds that text. */
  lemma DraftedIff(t: Table, id: Id, a: Answers, unsupportable: string -> bool, retries: nat, maxRetries: int)
    requires InStatus(t, id, Queued) && a.beforeLoad == a.beforeComplete == a.beforePark == []
    ensures var t' := JobTable(t, id, a, unsupportable, retries, maxRetries);
            && (InStatus(t', id, Drafted) <==>
                  && a.shed.None? && a.loads && a.configured
                  && a.generated.Text? && !unsupportable(a.generated.text) && a.completes != Raises(false))
            && (InStatus(t', id, Drafted) ==> t'[id].content == Some(a.generated.text))
  {
    if a.shed.None? && Writes(t, id, a, unsupportable) && a.completes != Raises(false) {
      var write := Complete(id, a.generated.text);
      assert [] + [write] == [write] && [write][..0] == [];
    }
  }

  /** The body had a text to write and its write was answered. */
  predicate WritesText(loaded: Table, id: Id, a: Answers, unsupportable: string -> bool) {
    && a.loads && InStatus(loaded, id, Queued) && a.configured
    && a.generated.Text? && !unsupportable(a.generated.text) && a.completes.Lands?
  }

  lemma BodyWrites(loaded: Table, written: Table, id: Id, a: Answers, unsupportable: string -> bool)
    ensures WritesText(loaded, id, a, unsupportable) <==>
            var body := BodyEnd(loaded, written, id, a, unsupportable); body == Returned(DraftedNow) || body == Returned(Superseded)
  {
    match a.generated {
      case Text(_) =>
      case _ =>
    }
  }

  /** Whatever others do meanwhile, a body ends `DraftedNow` iff its own write met the row
      queued, and the row then holds its text; it ends `Superseded` iff somebody else
      settled the row between its load and its write, and it then changed nothing. */
  lemma DraftedNowIff(t: Table, id: Id, a: Answers, unsupportable: string -> bool)
    ensures var body, loaded := BodyOf(t, id, a, unsupportable), Run(t, a.beforeLoad);
            var atWrite, after := Run(loaded, a.beforeComplete), Run(loaded, BodyActs(loaded, id, a, unsupportable));
            && (body == Returned(DraftedNow) <==> WritesText(loaded, id, a, unsupportable) && InStatus(atWrite, id, Queued))
            && (body == Returned(DraftedNow) ==>
                  after == atWrite[id := atWrite[id].(status := Drafted, content := Some(a.generated.text), error := None)])
            && (body == Returned(Superseded) <==> WritesText(loaded, id, a, unsupportable) && !InStatus(atWrite, id, Queued))
            && (body == Returned(Superseded) ==> after == atWrite)
  {
    var loaded := Run(t, a.beforeLoad);
    var atWrite := Run(loaded, a.beforeComplete);
    BodyWrites(loaded, atWrite, id, a, unsupportable);
    if WritesText(loaded, id, a, unsupportable) {
      RunStep(loaded, a.beforeComplete, Complete(id, a.generated.text));
    }
  }

  /** A body that finds the row settled returns its status and changes nothing. */
  lemma AlreadyIff(t: Table, id: Id, a: Answers, unsupportable: string -> bool, status: Status)
    ensures var body, loaded := BodyOf(t, id, a, unsupportable), Run(t, a.beforeLoad);
            && (body == Returned(Already(status)) <==> a.loads && InStatus(loaded, id, status) && status != Queued)
            && (body == Returned(Already(status)) ==> Run(loaded, BodyActs(loaded, id, a, unsupportable)) == loaded)
  {
  }

  /** Left to itself: what the execution's own statements make of the table. */
  lemma AloneWorked(t: Table, id: Id, a: Answers, unsupportable: string -> bool)
    requires InStatus(t, id, Queued) && a.beforeLoad == a.beforeComplete == []
    ensures Run(t, a.beforeLoad) == t
    ensures Worked(t, id, a, unsupportable) ==
            if a.shed.None? && Writes(t, id, a, unsupportable) && a.generated.Text? && a.completes != Raises(false)
            then t[id := t[id].(status := Drafted, content := Some(a.generated.text), error := None)] else t
  {
    if a.shed.None? && Writes(t, id, a, unsupportable) && a.generated.Text? && a.completes != Raises(false) {
      RunStep(t, [], Complete(id, a.generated.text));
      assert [] + [Complete(id, a.generated.text)] == [Complete(id, a.generated.text)];
    }
  }

  /** Something was in the way of a draft: load shedding, no row or provider, a text that
      cannot be had or supported, a provider in trouble once too often, or a write that
      was not answered. */
  predicate Obstructed(a: Answers, unsupportable: string -> bool, retries: nat, maxRetries: int) {
    || a.shed.Some? || !a.loads || !a.configured
    || a.generated.Declines? || a.generated.Refuses? || a.generated.Breaks?
    || (a.generated.ProviderDown? && retries >= maxRetries)
    || (a.generated.Text? && (unsupportable(a.generated.text) || a.completes.Raises?))
  }

  lemma ParksIff(t: Table, id: Id, a: Answers, unsupportable: string -> bool, retries: nat, maxRetries: int)
    requires InStatus(t, id, Queued) && a.beforeLoad == a.beforeComplete == []
    ensures ParkReason(a, BodyOf(t, id, a, unsupportable), retries, maxRetries).Some? <==>
            Obstructed(a, unsupportable, retries, maxRetries)
  {
    AloneWorked(t, id, a, unsupportable);
    match a.generated {
      case Text(_) =>
      case ProviderDown =>
      case _ =>
    }
  }

  /** Left to itself, an execution parks a queued row iff something was in the way of the
      draft, its own write had not landed all the same, and its park landed. */
  lemma ParkedIff(t: Table, id: Id, a: Answers, unsupportable: string -> bool, retries: nat, maxRetries: int)
    requires InStatus(t, id, Queued) && a.beforeLoad == a.beforeComplete == a.beforePark == []
    ensures var t' := JobTable(t, id, a, unsupportable, retries, maxRetries);
            && (InStatus(t', id, Parked) <==>
                  && Obstructed(a, unsupportable, retries, maxRetries) && a.parks != Raises(false)
                  && !(a.shed.None? && a.loads && a.configured && a.generated.Text? && !unsupportable(a.generated.text)
                       && a.completes != Raises(false)))
            && (InStatus(t', id, Parked) && a.shed.Some? ==> t'[id].error == Some(Shorten(a.shed.value)))
  {
    AloneWorked(t, id, a, unsupportable);
    ParksIff(t, id, a, unsupportable, retries, maxRetries);
  }

  /** A job is retried iff it got as far as the provider, the provider was in trouble,
      and the bound is not reached; nothing else is ever retried. */
  lemma RetryIff(t: Table, id: Id, a: Answers, unsupportable: string -> bool, retries: nat, maxRetries: int)
    ensures JobEnd(t, id, a, unsupportable, retries, maxRetries).Retry? <==>
            && a.shed.None? && a.loads && InStatus(Run(t, a.beforeLoad), id, Queued) && a.configured
            && a.generated.ProviderDown? && retries < maxRetries
  {
    var loaded := Run(t, a.beforeLoad);
    match a.generated {
      case ProviderDown =>
      case _ =>
    }
  }

  /** One enqueued job with its retries. It ends within maxRetries + 1 executions, and
      whatever others did meanwhile the row has then left the queue, unless the last
      execution could not write its park. */
  method Deliver(store: DraftStore, id: Id, answers: nat -> Answers, unsupportable: string -> bool, maxRetries: int)
    returns (executions: nat, last: Job)
    requires id in store.rows
    modifies store
    ensures 1 <= executions <= (if maxRetries < 0 then 0 else maxRetries) + 1
    ensures last.Done? || (last.Escaped? && answers(executions - 1).parks.Raises?)
    ensures last.Done? ==> !InStatus(store.rows, id, Queued)
  {
    executions := 0;
    while true
      invariant executions <= (if maxRetries < 0 then 0 else maxRetries)
      invariant id in store.rows
      decreases maxRetries - executions
    {
      var retries := executions;
      ghost var t, a := store.rows, answers(retries);
      JobKeepsTheRow(t, id, a, unsupportable, retries, maxRetries);
      RetryIff(t, id, a, unsupportable, retries, maxRetries);
      last := RunJob(store, id, answers(retries), unsupportable, retries, maxRetries);
      executions := executions + 1;
      if !last.Retry? {
        if last.Done? {
          JobSettles(t, id, a, unsupportable, retries, maxRetries);
        }
        return;
      }
    }
  }

  lemma JobKeepsTheRow(t: Table, id: Id, a: Answers, unsupportable: string -> bool, retries: nat, maxRetries: int)
    requires id in t
    ensures id in JobTable(t, id, a, unsupportable, retries, maxRetries)
  {
    var loaded := Run(t, a.beforeLoad);
    Remains(t, a.beforeLoad, id);
    Remains(loaded, BodyActs(loaded, id, a, unsupportable), id);
    Remains(Worked(t, id, a, unsupportable), a.beforePark, id);
  }
}
