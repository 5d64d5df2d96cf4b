/** The consumer runtime: decode, retry, park, commit, in single and in batch mode.
    What the decoder, the handler, the dead-letter producer and the broker answer is
    a parameter of each session; a session may fail at any of them. */
module Consumer {

  type Bytes = seq<int>

  datatype Key = NoKey | Key(bytes: Bytes)

  datatype Message = Message(key: Key, value: Bytes)

  datatype Delivery = Delivery(partition: nat, offset: nat)

  /** One record of the dead-letter topic: the original key and bytes, stamped. */
  datatype Parked = Parked(source: Delivery, key: Key, value: Bytes, attempts: nat)

  datatype Decoding = Event | BadBytes | Degraded

  datatype Reply = Done | Fails | Cancelled

  /** A send to the dead-letter topic: confirmed, or raising with or without having
      landed. */
  datatype Send = Lands | Raises(landed: bool)

  /** How the world answers one delivered message: the reply to each handler attempt,
      and what becomes of its dead-letter send. */
  datatype Answer = Answer(decoding: Decoding, reply: int -> Reply, dlq: Send)

  // ── the fate of one message ──

  /** `Orphaned` is parked although the send raised: the pass crashes all the same. */
  datatype Fate = Handled | Dead(attempts: nat) | Orphaned(attempts: nat) | Crashed | Dropped

  predicate Stops(f: Fate) { f.Crashed? || f.Orphaned? }

  function Buried(a: Answer, attempts: nat): Fate {
    if a.dlq.Lands? then Dead(attempts) else if a.dlq.landed then Orphaned(attempts) else Crashed
  }

  function Tries(a: Answer, attempt: nat, max: int): Fate
    requires attempt <= max
    decreases max - attempt
  {
    match a.reply(attempt)
    case Done => Handled
    case Cancelled => Crashed
    case Fails => if attempt == max then Buried(a, attempt) else Tries(a, attempt + 1, max)
  }

  function TriesOf(a: Answer, max: int): Fate { if max < 1 then Dropped else Tries(a, 1, max) }

  function FateOf(a: Answer, max: int): Fate {
    match a.decoding
    case Degraded => Crashed
    case BadBytes => Buried(a, 0)
    case Event => TriesOf(a, max)
  }

  /** Some attempt succeeds and every one before it fails. */
  ghost predicate SomeAttemptSucceeds(a: Answer, from: nat, max: int) {
    exists k: nat :: from <= k <= max && a.reply(k) == Done && forall j: nat :: from <= j < k ==> a.reply(j) == Fails
  }

  ghost predicate EveryAttemptFails(a: Answer, from: nat, max: int) {
    forall j: nat :: from <= j <= max ==> a.reply(j) == Fails
  }

  lemma {:induction false} TriesMeans(a: Answer, attempt: nat, max: int)
    requires attempt <= max
    ensures Tries(a, attempt, max) == Handled <==> SomeAttemptSucceeds(a, attempt, max)
    ensures Tries(a, attempt, max).Dead? <==> a.dlq.Lands? && EveryAttemptFails(a, attempt, max)
    ensures Tries(a, attempt, max).Orphaned? <==> a.dlq == Raises(true) && EveryAttemptFails(a, attempt, max)
    ensures Tries(a, attempt, max).Dead? || Tries(a, attempt, max).Orphaned? ==> Tries(a, attempt, max).attempts == max
    ensures Tries(a, attempt, max) != Dropped
    decreases max - attempt
  {
    if a.reply(attempt) == Done {
      assert SomeAttemptSucceeds(a, attempt, max);
    } else if a.reply(attempt) == Fails && attempt < max {
      TriesMeans(a, attempt + 1, max);
      if SomeAttemptSucceeds(a, attempt + 1, max) {
        var k: nat :| attempt + 1 <= k <= max && a.reply(k) == Done
                      && forall j: nat :: attempt + 1 <= j < k ==> a.reply(j) == Fails;
        assert forall j: nat :: attempt <= j < k ==> a.reply(j) == Fails;
        assert SomeAttemptSucceeds(a, attempt, max);
      }
      if SomeAttemptSucceeds(a, attempt, max) {
        var k: nat :| attempt <= k <= max && a.reply(k) == Done
                      && forall j: nat :: attempt <= j < k ==> a.reply(j) == Fails;
        assert attempt + 1 <= k;
      }
    }
  }

  /** What becomes of a message, in terms of what the world answered: handled iff
      some attempt within the bound succeeds first, dead iff the bytes are bad or
      every attempt fails, silently dropped iff no attempt is allowed at all. */
  lemma FateMeans(a: Answer, max: int)
    ensures FateOf(a, max) == Handled <==> a.decoding.Event? && SomeAttemptSucceeds(a, 1, max)
    ensures FateOf(a, max).Dead? <==>
            a.dlq.Lands? && (a.decoding.BadBytes? || (a.decoding.Event? && max >= 1 && EveryAttemptFails(a, 1, max)))
    ensures FateOf(a, max) == Dropped <==> a.decoding.Event? && max < 1
  {
    if max >= 1 {
      TriesMeans(a, 1, max);
    }
  }

  /** The attempts at a readable message come to an end that is no crash. */
  ghost predicate TriesPass(a: Answer, max: int) {
    max < 1 || SomeAttemptSucceeds(a, 1, max) || (a.dlq.Lands? && EveryAttemptFails(a, 1, max))
  }

  /** What the world has to answer for a pass to get over a message: its bad bytes are
      parked, or its attempts end without a crash. */
  ghost predicate Passes(a: Answer, max: int) {
    (a.decoding.BadBytes? && a.dlq.Lands?) || (a.decoding.Event? && TriesPass(a, max))
  }

  predicate Readable(a: Answer) { a.decoding.Event? || (a.decoding.BadBytes? && a.dlq.Lands?) }

  predicate Eventless(a: Answer) { !a.decoding.Event? }

  predicate Absent(a: Answer) { false }

  ghost function GotOver(max: int): Answer -> bool { (a: Answer) => a.decoding.Event? ==> TriesPass(a, max) }

  lemma PassesIff(a: Answer, max: int)
    ensures Stops(FateOf(a, max)) <==> !Passes(a, max)
    ensures a.decoding.Event? ==> (Stops(TriesOf(a, max)) <==> !TriesPass(a, max))
  {
    if max >= 1 {
      TriesMeans(a, 1, max);
    }
  }

  // ── several messages ──

  /** An assembled message, with the answers it is going to get. */
  datatype Item = Item(at: Delivery, message: Message, answer: Answer)

  function Stamp(it: Item, attempts: nat): Parked { Parked(it.at, it.message.key, it.message.value, attempts) }

  /** What a message's fate adds to the dead-letter topic. */
  function Sent(it: Item, f: Fate): seq<Parked> { if f.Dead? || f.Orphaned? then [Stamp(it, f.attempts)] else [] }

  /** The deliveries the first n singles handle, and the records they park, in order. */
  function Wins(batch: seq<Item>, n: nat, max: int): set<Delivery>
    requires n <= |batch|
  {
    if n == 0 then {} else
    var it := batch[n - 1];
    Wins(batch, n - 1, max) + if TriesOf(it.answer, max).Handled? then {it.at} else {}
  }

  function Graves(batch: seq<Item>, n: nat, max: int): seq<Parked>
    requires n <= |batch|
  {
    if n == 0 then [] else Graves(batch, n - 1, max) + Sent(batch[n - 1], TriesOf(batch[n - 1].answer, max))
  }

  predicate NoneCrash(batch: seq<Item>, max: int) {
    forall i :: 0 <= i < |batch| ==> !Stops(TriesOf(batch[i].answer, max))
  }

  ghost predicate IsGrave(g: Parked, d: Delivery, m: Message) {
    g.source == d && g.key == m.key && g.value == m.value
  }

  ghost predicate ParkedIn(dlq: seq<Parked>, d: Delivery, m: Message) {
    exists k :: 0 <= k < |dlq| && IsGrave(dlq[k], d, m)
  }

  lemma ParkedGrows(dlq: seq<Parked>, more: seq<Parked>, d: Delivery, m: Message)
    requires ParkedIn(dlq, d, m) || ParkedIn(more, d, m)
    ensures ParkedIn(dlq + more, d, m)
  {
    if ParkedIn(dlq, d, m) {
      var k :| 0 <= k < |dlq| && IsGrave(dlq[k], d, m);
      assert IsGrave((dlq + more)[k], d, m);
    } else {
      var k :| 0 <= k < |more| && IsGrave(more[k], d, m);
      assert IsGrave((dlq + more)[|dlq| + k], d, m);
    }
  }

  /** With at least one attempt, an item of a batch that went through is handled or
      parked; it is never merely gone. */
  lemma {:induction false} SinglesAccount(batch: seq<Item>, n: nat, max: int, i: nat)
    requires i < n <= |batch| && max >= 1 && NoneCrash(batch, max)
    ensures batch[i].at in Wins(batch, n, max) || ParkedIn(Graves(batch, n, max), batch[i].at, batch[i].message)
  {
    var it := batch[n - 1];
    var before, more := Graves(batch, n - 1, max), Sent(it, TriesOf(it.answer, max));
    if i < n - 1 {
      SinglesAccount(batch, n - 1, max, i);
      if ParkedIn(before, batch[i].at, batch[i].message) {
        ParkedGrows(before, more, batch[i].at, batch[i].message);
      }
    } else {
      TriesMeans(it.answer, 1, max);
      if TriesOf(it.answer, max).Dead? {
        assert IsGrave(more[0], it.at, it.message);
        ParkedGrows(before, more, it.at, it.message);
      }
    }
  }

  /** Assembly of the first n: undecodable bytes are parked, the rest becomes the batch. */
  function Decoded(items: seq<Item>, n: nat): seq<Item>
    requires n <= |items|
  {
    if n == 0 then []
    else Decoded(items, n - 1) + if items[n - 1].answer.decoding.Event? then [items[n - 1]] else []
  }

  function BadOnes(items: seq<Item>, n: nat): seq<Parked>
    requires n <= |items|
  {
    if n == 0 then []
    else BadOnes(items, n - 1) + if items[n - 1].answer.decoding.BadBytes? then [Stamp(items[n - 1], 0)] else []
  }

  predicate Decodes(it: Item) { Readable(it.answer) }

  lemma {:induction false} AssemblySplits(items: seq<Item>, n: nat, i: nat)
    requires i < n <= |items| && Decodes(items[i])
    ensures items[i] in Decoded(items, n) || ParkedIn(BadOnes(items, n), items[i].at, items[i].message)
  {
    var before, it := BadOnes(items, n - 1), items[n - 1];
    var more := if it.answer.decoding.BadBytes? then [Stamp(it, 0)] else [];
    if i < n - 1 {
      AssemblySplits(items, n - 1, i);
      if ParkedIn(before, items[i].at, items[i].message) {
        ParkedGrows(before, more, items[i].at, items[i].message);
      }
    } else if it.answer.decoding.BadBytes? {
      assert IsGrave(more[0], it.at, it.message);
      ParkedGrows(before, more, it.at, it.message);
    }
  }

  /** Assembly keeps the events and parks the bad bytes, and nothing else. */
  lemma {:induction false} DecodedAreItems(items: seq<Item>, n: nat)
    requires n <= |items|
    ensures forall it :: it in Decoded(items, n) <==> it in items[..n] && it.answer.decoding.Event?
    ensures forall g :: g in BadOnes(items, n) <==> exists it :: it in items[..n] && it.answer.decoding.BadBytes? && g == Stamp(it, 0)
  {
    if n > 0 {
      DecodedAreItems(items, n - 1);
      assert items[..n] == items[..n - 1] + [items[n - 1]];
    }
  }

  /** The singles handle those whose attempts succeed, and park the dead. */
  lemma {:induction false} WinsAreItems(batch: seq<Item>, n: nat, max: int)
    requires n <= |batch|
    ensures forall d :: d in Wins(batch, n, max) <==> exists it :: it in batch[..n] && it.at == d && TriesOf(it.answer, max).Handled?
    ensures forall g :: g in Graves(batch, n, max) <==> exists it :: it in batch[..n] && g in Sent(it, TriesOf(it.answer, max))
  {
    if n > 0 {
      WinsAreItems(batch, n - 1, max);
      assert batch[..n] == batch[..n - 1] + [batch[n - 1]];
    }
  }

  /** What one batch call, or the singles after it failed, handle and park. */
  function HandledOf(batch: seq<Item>, whole: Reply, max: int): set<Delivery> {
    if whole.Done? then All(batch) else Wins(batch, |batch|, max)
  }

  function GravesOf(batch: seq<Item>, whole: Reply, max: int): seq<Parked> {
    if whole.Done? then [] else Graves(batch, |batch|, max)
  }

  lemma AllAreItems(batch: seq<Item>, d: Delivery)
    ensures d in All(batch) <==> exists it :: it in batch && it.at == d
  {
    if it :| it in batch && it.at == d {
      var i :| 0 <= i < |batch| && batch[i] == it;
    }
  }

  function All(batch: seq<Item>): set<Delivery> { set i | 0 <= i < |batch| :: batch[i].at }

  /** One poll: how many records to take per partition, how they fare one by one,
      how the whole batch fares, and whether the commit goes through. */
  datatype Poll = Poll(take: seq<nat>, answers: (nat, nat) -> Answer, whole: Reply, commits: bool)

  datatype Session =
    | Singles(order: seq<nat>, answers: (nat, nat) -> Answer, commits: nat -> bool)
    | Batches(polls: seq<Poll>)

  /** Where a session leaves the offsets, and whether it crashed. */
  datatype Played = Played(position: seq<nat>, committed: seq<nat>, crashed: bool)

  // ── the runtime ──

  class EventConsumer {
    const log: seq<seq<Message>>
    const maxAttempts: int
    var position: seq<nat>       // the running client's next offset, per partition
    var committed: seq<nat>      // the group's offset
    var handled: set<Delivery>   // handler calls that returned
    var dlq: seq<Parked>

    constructor (log: seq<seq<Message>>, maxAttempts: int)
      ensures this.log == log && this.maxAttempts == maxAttempts && Valid() && Safe()
      ensures committed == seq(|log|, _ => 0) && handled == {} && dlq == []
    {
      this.log, this.maxAttempts := log, maxAttempts;
      position, committed := seq(|log|, _ => 0), seq(|log|, _ => 0);
      handled, dlq := {}, [];
    }

    ghost predicate Valid() reads this {
      && |position| == |committed| == |log|
      && (forall p :: 0 <= p < |log| ==> committed[p] <= position[p] <= |log[p]|)
      && (forall k :: 0 <= k < |dlq| ==> Verbatim(dlq[k]))
    }

    ghost predicate InLog(d: Delivery) { d.partition < |log| && d.offset < |log[d.partition]| }

    /** A parked record carries the key and the bytes it was delivered with. */
    ghost predicate Verbatim(g: Parked) {
      InLog(g.source) && IsGrave(g, g.source, log[g.source.partition][g.source.offset])
    }

    ghost predicate Accounted(d: Delivery) reads this {
      InLog(d) && (d in handled || ParkedIn(dlq, d, log[d.partition][d.offset]))
    }

    ghost predicate AccountedBelow(offsets: seq<nat>) reads this {
      forall p: nat, i: nat :: p < |offsets| && i < offsets[p] ==> Accounted(Delivery(p, i))
    }

    /** The promise behind every commit. */
    ghost predicate Safe() reads this { AccountedBelow(committed) }

    ghost predicate IsItem(it: Item) {
      InLog(it.at) && it.message == log[it.at.partition][it.at.offset]
    }

    /** Nothing that was accounted for is forgotten. */
    twostate predicate Grows() reads this {
      && position == old(position) && committed == old(committed)
      && old(handled) <= handled && old(dlq) <= dlq
    }

    twostate lemma StillAccounted(offsets: seq<nat>)
      requires Grows() && old(AccountedBelow(offsets))
      ensures AccountedBelow(offsets)
    {
      forall p: nat, i: nat | p < |offsets| && i < offsets[p] ensures Accounted(Delivery(p, i)) {
        StillAccountedOne(Delivery(p, i));
      }
    }

    twostate lemma StillAccountedOne(d: Delivery)
      requires Grows() && old(Accounted(d))
      ensures Accounted(d)
    {
      if d !in old(handled) {
        ParkedGrows(old(dlq), dlq[|old(dlq)|..], d, log[d.partition][d.offset]);
        assert dlq == old(dlq) + dlq[|old(dlq)|..];
      }
    }

    /** Park the original bytes; false when the dead-letter producer raised. */
    method Park(it: Item, attempts: nat) returns (ok: bool)
      requires Valid() && IsItem(it)
      modifies this`dlq
      ensures Valid() && ok == it.answer.dlq.Lands?
      ensures dlq == if it.answer.dlq != Raises(false) then old(dlq) + [Stamp(it, attempts)] else old(dlq)
    {
      ok := it.answer.dlq.Lands?;
      if it.answer.dlq != Raises(false) {
        dlq := dlq + [Stamp(it, attempts)];
      }
    }

    /** The bounded attempts at one decoded event. */
    method Attempts(it: Item) returns (ok: bool)
      requires Valid() && IsItem(it)
      modifies this`handled, this`dlq
      ensures Valid() && ok == !Stops(TriesOf(it.answer, maxAttempts))
      ensures handled == old(handled) + if TriesOf(it.answer, maxAttempts).Handled? then {it.at} else {}
      ensures dlq == old(dlq) + Sent(it, TriesOf(it.answer, maxAttempts))
    {
      var attempt := 1;
      while attempt <= maxAttempts
        invariant 1 <= attempt
        invariant maxAttempts >= 1 ==> attempt <= maxAttempts
        invariant attempt <= maxAttempts ==> Tries(it.answer, attempt, maxAttempts) == TriesOf(it.answer, maxAttempts)
        invariant Valid() && handled == old(handled) && dlq == old(dlq)
      {
        match it.answer.reply(attempt)
        case Done =>
          handled := handled + {it.at};
          return true;
        case Cancelled =>
          return false;
        case Fails =>
          if attempt == maxAttempts {
            ok := Park(it, attempt);
            return;
          }
          attempt := attempt + 1;
      }
      ok := true;
    }

    /** One message in single mode: its fate, exactly. A message that went through is
        accounted for iff it already was, its bytes are bad, or an attempt is allowed. */
    method Process(it: Item) returns (ok: bool)
      requires Valid() && IsItem(it)
      modifies this`handled, this`dlq
      ensures Valid() && ok == !Stops(FateOf(it.answer, maxAttempts))
      ensures handled == old(handled) + if FateOf(it.answer, maxAttempts).Handled? then {it.at} else {}
      ensures dlq == old(dlq) + Sent(it, FateOf(it.answer, maxAttempts))
      ensures ok ==> (Accounted(it.at) <==> old(Accounted(it.at)) || it.answer.decoding.BadBytes? || maxAttempts >= 1)
    {
      match it.answer.decoding
      case Degraded => ok := false;
      case BadBytes =>
        ok := Park(it, 0);
        assert ok ==> IsGrave(dlq[|old(dlq)|], it.at, it.message);
      case Event =>
        ok := Attempts(it);
        if maxAttempts < 1 {
          assert dlq == old(dlq);
        } else {
          TriesMeans(it.answer, 1, maxAttempts);
          assert TriesOf(it.answer, maxAttempts).Dead? ==> IsGrave(dlq[|old(dlq)|], it.at, it.message);
        }
    }

    /** After a crash a fresh client resumes from the group's offset. */
    method Rejoin()
      requires Valid()
      modifies this`position
      ensures Valid() && position == committed
    {
      position := committed;
    }

    /** Deliver the next message of a partition, process it, commit. */
    method Take(p: nat, answer: Answer, commits: bool) returns (ok: bool)
      requires Valid() && committed == position && (maxAttempts >= 1 ==> Safe())
      requires p < |log| && position[p] < |log[p]|
      modifies this
      ensures Valid() && old(handled) <= handled
      ensures maxAttempts >= 1 ==> Safe()
      ensures position == old(position)[p := old(position)[p] + 1]
      ensures committed == if ok then position else old(committed)
      ensures ok == (commits && !Stops(FateOf(answer, maxAttempts)))
      ensures var it := Item(Delivery(p, old(position)[p]), log[p][old(position)[p]], answer);
              && handled == old(handled) + (if FateOf(answer, maxAttempts).Handled? then {it.at} else {})
              && dlq == old(dlq) + Sent(it, FateOf(answer, maxAttempts))
    {
      var it := Item(Delivery(p, position[p]), log[p][position[p]], answer);
      position := position[p := position[p] + 1];
      label before:
      ok := Process(it);
      if maxAttempts >= 1 {
        StillAccounted@before(committed);
      }
      ok := ok && commits;
      if ok {
        CommitIsSafe(it.at);
        committed := position;
      }
    }

    lemma CommitIsSafe(d: Delivery)
      requires Valid() && d.partition < |log| && position == committed[d.partition := d.offset + 1]
      requires d.offset == committed[d.partition]
      ensures AccountedBelow(committed) && Accounted(d) ==> AccountedBelow(position)
    {
      if AccountedBelow(committed) && Accounted(d) {
        forall p: nat, i: nat | p < |position| && i < position[p] ensures Accounted(Delivery(p, i)) {
          if p == d.partition && i == d.offset {
            assert Delivery(p, i) == d;
          } else {
            assert i < committed[p];
          }
        }
      }
    }

    predicate InRange(offsets: seq<nat>) {
      |offsets| == |log| && forall p :: 0 <= p < |log| ==> offsets[p] <= |log[p]|
    }

    /** The next message of a partition, if there is one: delivered and committed, or a
        crash with the message in flight. */
    function OneDelivery(from: seq<nat>, p: nat, answers: (nat, nat) -> Answer, commits: bool): (r: Played)
      requires InRange(from)
      ensures InRange(r.position) && InRange(r.committed)
    {
      if p >= |log| || from[p] >= |log[p]| then Played(from, from, false)
      else
        var to := from[p := from[p] + 1];
        if Stops(FateOf(answers(p, from[p]), maxAttempts)) || !commits then Played(to, from, true)
        else Played(to, to, false)
    }

    /** A single-mode session, message by message: it goes on while each message's fate
        is not a crash and each commit goes through. */
    function PlaySingles(from: seq<nat>, order: seq<nat>, answers: (nat, nat) -> Answer, commits: nat -> bool): (r: Played)
      requires InRange(from)
      ensures InRange(r.position) && InRange(r.committed)
    {
      if |order| == 0 then Played(from, from, false)
      else
        var before := PlaySingles(from, order[..|order| - 1], answers, commits);
        if before.crashed then before
        else OneDelivery(before.position, order[|order| - 1], answers, commits(|order| - 1))
    }

    lemma {:induction false} CrashEndsSingles(from: seq<nat>, order: seq<nat>, answers: (nat, nat) -> Answer, commits: nat -> bool, k: nat)
      requires InRange(from) && k <= |order| && PlaySingles(from, order[..k], answers, commits).crashed
      ensures PlaySingles(from, order, answers, commits) == PlaySingles(from, order[..k], answers, commits)
    {
      if k < |order| {
        assert order[..|order| - 1][..k] == order[..k];
        CrashEndsSingles(from, order[..|order| - 1], answers, commits, k);
      } else {
        assert order[..k] == order;
      }
    }

    /** One more delivery of a session that has not crashed. */
    lemma {:induction false} SinglesSnoc(from: seq<nat>, order: seq<nat>, answers: (nat, nat) -> Answer, commits: nat -> bool, k: nat)
      requires InRange(from) && k < |order| && !PlaySingles(from, order[..k], answers, commits).crashed
      ensures PlaySingles(from, order[..k + 1], answers, commits)
           == OneDelivery(PlaySingles(from, order[..k], answers, commits).position, order[k], answers, commits(k))
    {
      assert order[..k + 1][..k] == order[..k];
    }

    /** A crash leaves exactly the message in flight uncommitted. */
    lemma {:induction false} SinglesLag(from: seq<nat>, order: seq<nat>, answers: (nat, nat) -> Answer, commits: nat -> bool)
      returns (p: nat)
      requires InRange(from)
      ensures var r := PlaySingles(from, order, answers, commits);
              && (!r.crashed ==> r.committed == r.position)
              && (r.crashed ==> p < |r.committed| && r.position == r.committed[p := r.committed[p] + 1])
    {
      p := 0;
      if |order| > 0 {
        var before := PlaySingles(from, order[..|order| - 1], answers, commits);
        p := SinglesLag(from, order[..|order| - 1], answers, commits);
        if !before.crashed && order[|order| - 1] < |log| {
          p := order[|order| - 1];
        }
      }
    }

    // ── how far a single-mode session gets ──

    /** How often the first n deliveries name a partition. */
    static function Named(order: seq<nat>, n: nat, p: nat): nat
      requires n <= |order|
    {
      if n == 0 then 0 else Named(order, n - 1, p) + if order[n - 1] == p then 1 else 0
    }

    /** As far on as the deliveries name the partition, and no further than its end. */
    function Reach(from: seq<nat>, order: seq<nat>, n: nat, p: nat): nat
      requires InRange(from) && n <= |order| && p < |log|
    {
      if Named(order, n, p) <= |log[p]| - from[p] then from[p] + Named(order, n, p) else |log[p]|
    }

    /** Delivery k meets a message and the pass does not get over it. */
    ghost predicate Halts(from: seq<nat>, order: seq<nat>, answers: (nat, nat) -> Answer, commits: nat -> bool, k: nat)
      requires InRange(from) && k < |order|
    {
      var p := order[k];
      p < |log| && Reach(from, order, k, p) < |log[p]|
      && !(commits(k) && Passes(answers(p, Reach(from, order, k, p)), maxAttempts))
    }

    ghost predicate At(offsets: seq<nat>, from: seq<nat>, order: seq<nat>, n: nat)
      requires InRange(from) && n <= |order|
    {
      |offsets| == |log| && forall p :: 0 <= p < |log| ==> offsets[p] == Reach(from, order, n, p)
    }

    lemma {:induction false} ReachedAfter(from: seq<nat>, order: seq<nat>, n: nat, answers: (nat, nat) -> Answer, commits: nat -> bool)
      requires InRange(from) && n <= |order|
      ensures var r := PlaySingles(from, order[..n], answers, commits);
              && (!r.crashed ==> r.position == r.committed && At(r.committed, from, order, n)
                                 && forall k: nat :: k < n ==> !Halts(from, order, answers, commits, k))
              && (r.crashed ==> exists k: nat :: k < n && HaltsFirst(from, order, answers, commits, k) && At(r.committed, from, order, k))
    {
      if n > 0 {
        ReachedAfter(from, order, n - 1, answers, commits);
        assert order[..n][..n - 1] == order[..n - 1];
        var before := PlaySingles(from, order[..n - 1], answers, commits);
        if !before.crashed {
          ReachedNext(from, before.position, order, n - 1, answers, commits);
        }
      }
    }

    ghost predicate HaltsFirst(from: seq<nat>, order: seq<nat>, answers: (nat, nat) -> Answer, commits: nat -> bool, k: nat)
      requires InRange(from) && k < |order|
    {
      Halts(from, order, answers, commits, k) && forall j: nat :: j < k ==> !Halts(from, order, answers, commits, j)
    }

    lemma ReachedNext(from: seq<nat>, at: seq<nat>, order: seq<nat>, k: nat, answers: (nat, nat) -> Answer, commits: nat -> bool)
      requires InRange(from) && InRange(at) && k < |order| && At(at, from, order, k)
      ensures var r := OneDelivery(at, order[k], answers, commits(k));
              && (r.crashed <==> Halts(from, order, answers, commits, k))
              && (r.crashed ==> r.committed == at)
              && (!r.crashed ==> r.position == r.committed && At(r.committed, from, order, k + 1))
    {
      if order[k] < |log| {
        PassesIff(answers(order[k], at[order[k]]), maxAttempts);
      }
    }

    /** How far a single-mode session gets, for any answers: it crashes iff some delivery
        meets a message that it does not get over or cannot commit; up to the first such
        one, or to its end, every partition is committed as far as it was named. */
    lemma {:induction false} SinglesReach(from: seq<nat>, order: seq<nat>, answers: (nat, nat) -> Answer, commits: nat -> bool)
      requires InRange(from)
      ensures var r := PlaySingles(from, order, answers, commits);
              && (r.crashed <==> exists k: nat :: k < |order| && Halts(from, order, answers, commits, k))
              && (!r.crashed ==> At(r.committed, from, order, |order|))
              && (forall k: nat :: k < |order| && HaltsFirst(from, order, answers, commits, k) ==> At(r.committed, from, order, k))
    {
      assert order[..|order|] == order;
      ReachedAfter(from, order, |order|, answers, commits);
      var r := PlaySingles(from, order, answers, commits);
      if r.crashed {
        var k: nat :| k < |order| && HaltsFirst(from, order, answers, commits, k) && At(r.committed, from, order, k);
        forall j: nat | j < |order| && HaltsFirst(from, order, answers, commits, j) ensures j == k {
        }
      }
    }

    predicate NoLess(a: seq<nat>, b: seq<nat>) { |a| <= |b| && forall p :: 0 <= p < |a| ==> a[p] <= b[p] }

    /** Offsets never go back. */
    lemma {:induction false} SinglesGoOn(from: seq<nat>, order: seq<nat>, answers: (nat, nat) -> Answer, commits: nat -> bool)
      requires InRange(from)
      ensures var r := PlaySingles(from, order, answers, commits); NoLess(from, r.committed) && NoLess(from, r.position)
    {
      if |order| > 0 {
        SinglesGoOn(from, order[..|order| - 1], answers, commits);
      }
    }

    // ── what a single-mode session handles and parks ──

    /** Delivered by a session that started at `from` and stands at `to`. */
    predicate Delivered(from: seq<nat>, to: seq<nat>, d: Delivery) {
      d.partition < |from| && d.partition < |to| && from[d.partition] <= d.offset < to[d.partition]
    }

    /** Delivered and readable, and some attempt within the bound succeeds. */
    ghost predicate MustHandle(from: seq<nat>, to: seq<nat>, answers: (nat, nat) -> Answer, d: Delivery) {
      Delivered(from, to, d) && answers(d.partition, d.offset).decoding.Event?
      && SomeAttemptSucceeds(answers(d.partition, d.offset), 1, maxAttempts)
    }

    /** The record that this delivery leaves on the dead-letter topic: verbatim, after no
        attempt at bad bytes or after all attempts at an event, and its send landed. */
    ghost predicate MustPark(from: seq<nat>, to: seq<nat>, answers: (nat, nat) -> Answer, g: Parked) {
      && Delivered(from, to, g.source) && Verbatim(g)
      && var a := answers(g.source.partition, g.source.offset);
         && a.dlq != Raises(false)
         && (|| (a.decoding.BadBytes? && g.attempts == 0)
             || (a.decoding.Event? && maxAttempts >= 1 && EveryAttemptFails(a, 1, maxAttempts) && g.attempts == maxAttempts))
    }

    /** What a fate adds, in terms of the answers. */
    lemma SentIff(it: Item, g: Parked)
      requires IsItem(it)
      ensures FateOf(it.answer, maxAttempts).Handled? <==>
                it.answer.decoding.Event? && SomeAttemptSucceeds(it.answer, 1, maxAttempts)
      ensures g in Sent(it, FateOf(it.answer, maxAttempts)) <==>
                && g.source == it.at && Verbatim(g) && it.answer.dlq != Raises(false)
                && (|| (it.answer.decoding.BadBytes? && g.attempts == 0)
                    || (it.answer.decoding.Event? && maxAttempts >= 1 && EveryAttemptFails(it.answer, 1, maxAttempts)
                        && g.attempts == maxAttempts))
    {
      FateMeans(it.answer, maxAttempts);
      if maxAttempts >= 1 {
        TriesMeans(it.answer, 1, maxAttempts);
      }
    }

    ghost predicate OncePerSource(graves: seq<Parked>) {
      forall i, j :: 0 <= i < j < |graves| ==> graves[i].source != graves[j].source
    }

    ghost predicate ParksExactly(graves: seq<Parked>, from: seq<nat>, to: seq<nat>, answers: (nat, nat) -> Answer) {
      OncePerSource(graves) && forall g :: g in graves <==> MustPark(from, to, answers, g)
    }

    /** One more delivery: its record, if it leaves one, is the only one of its source. */
    lemma OneMoreGrave(graves: seq<Parked>, from: seq<nat>, at: seq<nat>, p: nat, answers: (nat, nat) -> Answer)
      requires |from| == |at| == |log| && p < |log| && from[p] <= at[p] < |log[p]|
      requires ParksExactly(graves, from, at, answers)
      ensures var it := Item(Delivery(p, at[p]), log[p][at[p]], answers(p, at[p]));
              ParksExactly(graves + Sent(it, FateOf(it.answer, maxAttempts)), from, at[p := at[p] + 1], answers)
    {
      var it := Item(Delivery(p, at[p]), log[p][at[p]], answers(p, at[p]));
      var sent, to := Sent(it, FateOf(it.answer, maxAttempts)), at[p := at[p] + 1];
      forall g ensures g in graves + sent <==> MustPark(from, to, answers, g) {
        assert Delivered(from, to, g.source) <==> Delivered(from, at, g.source) || g.source == it.at;
        assert g in graves <==> MustPark(from, at, answers, g);
        SentIff(it, g);
      }
      forall k | 0 <= k < |graves| ensures graves[k].source != it.at {
        assert graves[k] in graves && MustPark(from, at, answers, graves[k]);
      }
    }

    /** Where a session stands: how far it got, what it handled and what it parked. */
    ghost predicate Stands(from: seq<nat>, to: seq<nat>, answers: (nat, nat) -> Answer,
                           handled0: set<Delivery>, dlq0: seq<Parked>, handled: set<Delivery>, dlq: seq<Parked>) {
      && |from| == |log| && NoLess(from, to)
      && (forall d :: d in handled <==> d in handled0 || MustHandle(from, to, answers, d))
      && dlq0 <= dlq && ParksExactly(dlq[|dlq0|..], from, to, answers)
    }

    lemma OneMoreStands(from: seq<nat>, at: seq<nat>, p: nat, answers: (nat, nat) -> Answer,
                        handled0: set<Delivery>, dlq0: seq<Parked>, handled: set<Delivery>, dlq: seq<Parked>)
      requires |at| == |log| && p < |log| && at[p] < |log[p]|
      requires Stands(from, at, answers, handled0, dlq0, handled, dlq)
      ensures var it := Item(Delivery(p, at[p]), log[p][at[p]], answers(p, at[p]));
              var fate := FateOf(it.answer, maxAttempts);
              Stands(from, at[p := at[p] + 1], answers, handled0, dlq0,
                     handled + (if fate.Handled? then {it.at} else {}), dlq + Sent(it, fate))
    {
      var it := Item(Delivery(p, at[p]), log[p][at[p]], answers(p, at[p]));
      var fate, to := FateOf(it.answer, maxAttempts), at[p := at[p] + 1];
      OneMoreGrave(dlq[|dlq0|..], from, at, p, answers);
      SentIff(it, Stamp(it, 0));
      assert (dlq + Sent(it, fate))[|dlq0|..] == dlq[|dlq0|..] + Sent(it, fate);
      forall d ensures MustHandle(from, to, answers, d) <==> MustHandle(from, at, answers, d) || (d == it.at && fate.Handled?) {
        assert Delivered(from, to, d) <==> Delivered(from, at, d) || d == it.at;
      }
    }

    /** One single-mode session: each message is processed, then committed. Exactly the
        deliveries whose attempts succeed are handled, and exactly the dead ones parked,
        each once. */
    method ConsumeOnce(order: seq<nat>, answers: (nat, nat) -> Answer, commits: nat -> bool) returns (crashed: bool)
      requires Valid() && (maxAttempts >= 1 ==> Safe())
      modifies this
      ensures Valid() && old(handled) <= handled
      ensures maxAttempts >= 1 ==> Safe()
      ensures Played(position, committed, crashed) == PlaySingles(old(committed), order, answers, commits)
      ensures Stands(old(committed), position, answers, old(handled), old(dlq), handled, dlq)
    {
      Rejoin();
      for k := 0 to |order|
        invariant Valid() && committed == position && old(handled) <= handled
        invariant maxAttempts >= 1 ==> Safe()
        invariant Played(position, committed, false) == PlaySingles(old(committed), order[..k], answers, commits)
        invariant Stands(old(committed), position, answers, old(handled), old(dlq), handled, dlq)
      {
        var ok := NextSingle(old(committed), old(handled), old(dlq), order, k, answers, commits);
        if !ok {
          return true;
        }
      }
      assert order[..|order|] == order;
      crashed := false;
    }

    /** One more delivery of a single-mode session: it leaves the session where it was one
        delivery further, which is its end when the delivery crashes. */
    method NextSingle(ghost from: seq<nat>, ghost handled0: set<Delivery>, ghost dlq0: seq<Parked>,
                      order: seq<nat>, k: nat, answers: (nat, nat) -> Answer, commits: nat -> bool)
      returns (ok: bool)
      requires Valid() && committed == position && (maxAttempts >= 1 ==> Safe()) && k < |order|
      requires InRange(from) && Played(position, committed, false) == PlaySingles(from, order[..k], answers, commits)
      requires Stands(from, position, answers, handled0, dlq0, handled, dlq)
      modifies this
      ensures Valid() && old(handled) <= handled && (ok ==> committed == position)
      ensures maxAttempts >= 1 ==> Safe()
      ensures Played(position, committed, !ok) == PlaySingles(from, if ok then order[..k + 1] else order, answers, commits)
      ensures Stands(from, position, answers, handled0, dlq0, handled, dlq)
    {
      SinglesSnoc(from, order, answers, commits, k);
      ok := Deliver(from, handled0, dlq0, order[k], answers, commits(k));
      if !ok {
        CrashEndsSingles(from, order, answers, commits, k + 1);
      }
    }

    method Deliver(ghost from: seq<nat>, ghost handled0: set<Delivery>, ghost dlq0: seq<Parked>,
                   p: nat, answers: (nat, nat) -> Answer, commits: bool)
      returns (ok: bool)
      requires Valid() && committed == position && (maxAttempts >= 1 ==> Safe())
      requires Stands(from, position, answers, handled0, dlq0, handled, dlq)
      modifies this
      ensures Valid() && old(handled) <= handled
      ensures maxAttempts >= 1 ==> Safe()
      ensures Played(position, committed, !ok) == OneDelivery(old(position), p, answers, commits)
      ensures Stands(from, position, answers, handled0, dlq0, handled, dlq)
    {
      if p < |log| && position[p] < |log[p]| {
        OneMoreStands(from, position, p, answers, handled0, dlq0, handled, dlq);
      }
      ok := Next(p, answers, commits);
    }

    method Next(p: nat, answers: (nat, nat) -> Answer, commits: bool) returns (ok: bool)
      requires Valid() && committed == position && (maxAttempts >= 1 ==> Safe())
      modifies this
      ensures Valid() && old(handled) <= handled
      ensures maxAttempts >= 1 ==> Safe()
      ensures Played(position, committed, !ok) == OneDelivery(old(position), p, answers, commits)
      ensures if p >= |log| || old(position)[p] >= |log[p]| then handled == old(handled) && dlq == old(dlq) && position == old(position)
              else var it := Item(Delivery(p, old(position)[p]), log[p][old(position)[p]], answers(p, old(position)[p]));
                   && position == old(position)[p := old(position)[p] + 1]
                   && handled == old(handled) + (if FateOf(it.answer, maxAttempts).Handled? then {it.at} else {})
                   && dlq == old(dlq) + Sent(it, FateOf(it.answer, maxAttempts))
    {
      ok := true;
      if p < |log| && position[p] < |log[p]| {
        ok := Take(p, answers(p, position[p]), commits);
      }
    }

    // ── batch mode ──

    /** One record of a batch: an event joins it, undecodable bytes are parked. */
    method Admit(it: Item) returns (ok: bool, events: seq<Item>)
      requires Valid() && IsItem(it)
      modifies this`dlq
      ensures Valid() && Grows()
      ensures ok == Decodes(it) && events == if it.answer.decoding.Event? then [it] else []
      ensures ok ==> dlq == old(dlq) + if it.answer.decoding.BadBytes? then [Stamp(it, 0)] else []
    {
      events := [];
      match it.answer.decoding
      case Event => ok, events := true, [it];
      case Degraded => ok := false;
      case BadBytes => ok := Park(it, 0);
    }

    method Assemble(items: seq<Item>) returns (ok: bool, batch: seq<Item>)
      requires Valid() && forall i :: 0 <= i < |items| ==> IsItem(items[i])
      modifies this`dlq
      ensures Valid() && Grows()
      ensures ok <==> forall i :: 0 <= i < |items| ==> Decodes(items[i])
      ensures ok ==> batch == Decoded(items, |items|) && dlq == old(dlq) + BadOnes(items, |items|)
    {
      batch := [];
      for i := 0 to |items|
        invariant Valid() && forall j :: 0 <= j < i ==> Decodes(items[j])
        invariant batch == Decoded(items, i) && dlq == old(dlq) + BadOnes(items, i)
      {
        var events;
        ok, events := Admit(items[i]);
        if !ok {
          return;
        }
        batch := batch + events;
      }
      ok := true;
    }

    /** One call for the whole batch; when it fails, one by one. */
    method HandleBatch(batch: seq<Item>, whole: Reply) returns (ok: bool)
      requires Valid() && forall i :: 0 <= i < |batch| ==> IsItem(batch[i])
      modifies this`handled, this`dlq
      ensures Valid() && Grows()
      ensures ok <==> whole.Done? || (whole.Fails? && NoneCrash(batch, maxAttempts))
      ensures whole.Done? ==> handled == old(handled) + All(batch) && dlq == old(dlq)
      ensures ok && whole.Fails? ==>
                && handled == old(handled) + Wins(batch, |batch|, maxAttempts)
                && dlq == old(dlq) + Graves(batch, |batch|, maxAttempts)
    {
      if whole.Done? {
        handled := handled + All(batch);
        return true;
      }
      if whole.Cancelled? {
        return false;
      }
      ok := Singles(batch);
    }

    /** The batch one by one, for poison isolation. */
    method Singles(batch: seq<Item>) returns (ok: bool)
      requires Valid() && forall i :: 0 <= i < |batch| ==> IsItem(batch[i])
      modifies this`handled, this`dlq
      ensures Valid() && Grows()
      ensures ok <==> NoneCrash(batch, maxAttempts)
      ensures ok ==> && handled == old(handled) + Wins(batch, |batch|, maxAttempts)
                     && dlq == old(dlq) + Graves(batch, |batch|, maxAttempts)
    {
      for i := 0 to |batch|
        invariant Valid() && forall j :: 0 <= j < i ==> !Stops(TriesOf(batch[j].answer, maxAttempts))
        invariant handled == old(handled) + Wins(batch, i, maxAttempts)
        invariant dlq == old(dlq) + Graves(batch, i, maxAttempts)
      {
        ghost var graves := Graves(batch, i, maxAttempts);
        ok := Attempts(batch[i]);
        assert dlq == old(dlq) + (graves + Sent(batch[i], TriesOf(batch[i].answer, maxAttempts)));
        if !ok {
          return;
        }
      }
      ok := true;
    }

    /** After assembly and handling, every fetched item is accounted for. */
    lemma BatchIsAccounted(items: seq<Item>, handled0: set<Delivery>, dlq0: seq<Parked>, whole: Reply, i: nat)
      requires i < |items| && IsItem(items[i]) && maxAttempts >= 1 && Decodes(items[i])
      requires whole.Done? ==> handled == handled0 + All(Decoded(items, |items|)) && dlq == dlq0 + BadOnes(items, |items|)
      requires !whole.Done? ==>
                 && NoneCrash(Decoded(items, |items|), maxAttempts)
                 && handled == handled0 + Wins(Decoded(items, |items|), |Decoded(items, |items|)|, maxAttempts)
                 && dlq == dlq0 + BadOnes(items, |items|) + Graves(Decoded(items, |items|), |Decoded(items, |items|)|, maxAttempts)
      ensures Accounted(items[i].at)
    {
      var batch, d, m := Decoded(items, |items|), items[i].at, items[i].message;
      AssemblySplits(items, |items|, i);
      if items[i] in batch {
        var j :| 0 <= j < |batch| && batch[j] == items[i];
        if !whole.Done? {
          SinglesAccount(batch, |batch|, maxAttempts, j);
          if ParkedIn(Graves(batch, |batch|, maxAttempts), d, m) {
            ParkedGrows(dlq0 + BadOnes(items, |items|), Graves(batch, |batch|, maxAttempts), d, m);
          }
        }
      } else {
        ParkedGrows(dlq0, BadOnes(items, |items|), d, m);
        if !whole.Done? {
          ParkedGrows(dlq0 + BadOnes(items, |items|), Graves(batch, |batch|, maxAttempts), d, m);
        }
      }
    }

    /** How far a poll takes each partition. */
    function Ahead(from: seq<nat>, poll: Poll): (to: seq<nat>)
      requires InRange(from)
      ensures InRange(to) && forall p :: 0 <= p < |log| ==> from[p] <= to[p]
    {
      seq(|log|, p requires 0 <= p < |log| && p < |from| =>
        if p < |poll.take| && poll.take[p] <= |log[p]| - from[p] then from[p] + poll.take[p]
        else if p < |poll.take| && from[p] <= |log[p]| then |log[p]|
        else from[p])
    }

    /** The records of a poll, partition after partition. */
    function Fetched(n: nat, from: seq<nat>, to: seq<nat>, poll: Poll): (items: seq<Item>)
      requires n <= |log| == |from| == |to|
      requires forall p :: 0 <= p < |log| ==> from[p] <= to[p] <= |log[p]|
      ensures forall k :: 0 <= k < |items| ==> IsItem(items[k])
    {
      if n == 0 then []
      else
        var p := n - 1;
        Fetched(p, from, to, poll) +
        seq(to[p] - from[p], i requires 0 <= i < to[p] - from[p] =>
          Item(Delivery(p, from[p] + i), log[p][from[p] + i], poll.answers(p, from[p] + i)))
    }

    lemma {:induction false} FetchedCovers(n: nat, from: seq<nat>, to: seq<nat>, poll: Poll, p: nat, i: nat) returns (k: nat)
      requires n <= |log| == |from| == |to|
      requires forall p :: 0 <= p < |log| ==> from[p] <= to[p] <= |log[p]|
      requires p < n && from[p] <= i < to[p]
      ensures k < |Fetched(n, from, to, poll)| && Fetched(n, from, to, poll)[k].at == Delivery(p, i)
    {
      if p == n - 1 {
        k := |Fetched(n - 1, from, to, poll)| + (i - from[p]);
      } else {
        k := FetchedCovers(n - 1, from, to, poll, p, i);
      }
    }

    lemma PollIsAccounted(to: seq<nat>, items: seq<Item>, poll: Poll)
      requires |position| == |log| == |to|
      requires forall p :: 0 <= p < |log| ==> position[p] <= to[p] <= |log[p]|
      requires items == Fetched(|log|, position, to, poll)
      requires AccountedBelow(position)
      requires forall k :: 0 <= k < |items| ==> Accounted(items[k].at)
      ensures AccountedBelow(to)
    {
      forall p: nat, i: nat | p < |to| && i < to[p] ensures Accounted(Delivery(p, i)) {
        if i >= position[p] {
          var k := FetchedCovers(|log|, position, to, poll, p, i);
        }
      }
    }

    /** No registry, dead-letter or cancellation failure stops the poll. */
    ghost predicate Survives(items: seq<Item>, whole: Reply) {
      && (forall i :: 0 <= i < |items| ==> Decodes(items[i]))
      && (Decoded(items, |items|) == [] || whole.Done? || (whole.Fails? && NoneCrash(Decoded(items, |items|), maxAttempts)))
    }

    /** Assemble and handle one poll's records. */
    method Account(items: seq<Item>, whole: Reply) returns (ok: bool)
      requires Valid() && forall k :: 0 <= k < |items| ==> IsItem(items[k])
      modifies this`handled, this`dlq
      ensures Valid() && Grows()
      ensures ok == Survives(items, whole)
      ensures ok ==> var batch := Decoded(items, |items|);
                     && handled == old(handled) + HandledOf(batch, whole, maxAttempts)
                     && dlq == old(dlq) + BadOnes(items, |items|) + GravesOf(batch, whole, maxAttempts)
      ensures ok && maxAttempts >= 1 ==> forall k :: 0 <= k < |items| ==> Accounted(items[k].at)
    {
      var batch;
      ok, batch := Assemble(items);
      if !ok {
        return;
      }
      DecodedAreItems(items, |items|);
      assert items[..|items|] == items;
      assert forall i :: 0 <= i < |batch| ==> batch[i] in items;
      if |batch| > 0 {
        ok := HandleBatch(batch, whole);
      }
      if ok && maxAttempts >= 1 {
        var answered := if |batch| > 0 then whole else Done;
        forall k | 0 <= k < |items| ensures Accounted(items[k].at) {
          BatchIsAccounted(items, old(handled), old(dlq), answered, k);
        }
      }
    }

    ghost predicate PollSurvives(from: seq<nat>, poll: Poll)
      requires InRange(from)
    {
      var items := Fetched(|log|, from, Ahead(from, poll), poll);
      Survives(items, poll.whole) && (|items| == 0 || poll.commits)
    }

    /** A batch-mode session, poll by poll. */
    ghost function PlayBatches(from: seq<nat>, polls: seq<Poll>): (r: Played)
      requires InRange(from)
      ensures InRange(r.position) && InRange(r.committed)
    {
      if |polls| == 0 then Played(from, from, false)
      else
        var before, poll := PlayBatches(from, polls[..|polls| - 1]), polls[|polls| - 1];
        if before.crashed then before else OnePoll(before.position, poll)
    }

    /** One poll: everything fetched is accounted for and committed, or it is a crash
        with the whole poll in flight. */
    ghost function OnePoll(from: seq<nat>, poll: Poll): (r: Played)
      requires InRange(from)
      ensures InRange(r.position) && InRange(r.committed)
    {
      var to := Ahead(from, poll);
      if PollSurvives(from, poll) then Played(to, to, false) else Played(to, from, true)
    }

    lemma {:induction false} BatchesGoOn(from: seq<nat>, polls: seq<Poll>)
      requires InRange(from)
      ensures var r := PlayBatches(from, polls); NoLess(from, r.committed) && NoLess(from, r.position)
    {
      if |polls| > 0 {
        BatchesGoOn(from, polls[..|polls| - 1]);
      }
    }

    lemma {:induction false} CrashEndsBatches(from: seq<nat>, polls: seq<Poll>, k: nat)
      requires InRange(from) && k <= |polls| && PlayBatches(from, polls[..k]).crashed
      ensures PlayBatches(from, polls) == PlayBatches(from, polls[..k])
    {
      if k < |polls| {
        assert polls[..|polls| - 1][..k] == polls[..k];
        CrashEndsBatches(from, polls[..|polls| - 1], k);
      } else {
        assert polls[..k] == polls;
      }
    }

    /** One more poll of a session, if it has not crashed. */
    lemma {:induction false} BatchesStep(from: seq<nat>, polls: seq<Poll>, k: nat)
      requires InRange(from) && k < |polls|
      ensures var before := PlayBatches(from, polls[..k]);
              PlayBatches(from, polls[..k + 1]) == if before.crashed then before else OnePoll(before.position, polls[k])
    {
      assert polls[..k + 1][..k] == polls[..k];
    }

    /** Poll, account for everything fetched, then commit once. */
    method PollOnce(poll: Poll) returns (ok: bool)
      requires Valid() && committed == position && (maxAttempts >= 1 ==> Safe())
      modifies this
      ensures Valid() && old(handled) <= handled
      ensures maxAttempts >= 1 ==> Safe()
      ensures Played(position, committed, !ok) == OnePoll(old(position), poll)
      ensures var items := Fetched(|log|, old(position), position, poll);
              var batch := Decoded(items, |items|);
              Survives(items, poll.whole) ==>
                && handled == old(handled) + HandledOf(batch, poll.whole, maxAttempts)
                && dlq == old(dlq) + BadOnes(items, |items|) + GravesOf(batch, poll.whole, maxAttempts)
    {
      var to := Ahead(position, poll);
      var items := Fetched(|log|, position, to, poll);
      ok := Account(items, poll.whole);
      if maxAttempts >= 1 {
        StillAccounted(committed);
        if ok {
          PollIsAccounted(to, items, poll);
        }
      }
      position := to;
      ok := ok && (|items| == 0 || poll.commits);
      if ok {
        committed := position;
      }
    }

    /** One more poll of a batch-mode session: it leaves the session where it was one
        poll further, which is its end when the poll crashes. */
    method NextPoll(ghost from: seq<nat>, polls: seq<Poll>, k: nat) returns (ok: bool)
      requires Valid() && committed == position && (maxAttempts >= 1 ==> Safe()) && k < |polls|
      requires InRange(from) && Played(position, committed, false) == PlayBatches(from, polls[..k])
      modifies this
      ensures Valid() && old(handled) <= handled && (ok ==> committed == position)
      ensures maxAttempts >= 1 ==> Safe()
      ensures Played(position, committed, !ok) == PlayBatches(from, if ok then polls[..k + 1] else polls)
    {
      BatchesStep(from, polls, k);
      ok := PollOnce(polls[k]);
      if !ok {
        CrashEndsBatches(from, polls, k + 1);
      }
    }

    /** One batch-mode session: a crash leaves the offsets of the last full poll. */
    method ConsumeBatchesOnce(polls: seq<Poll>) returns (crashed: bool)
      requires Valid() && (maxAttempts >= 1 ==> Safe())
      modifies this
      ensures Valid() && old(handled) <= handled
      ensures maxAttempts >= 1 ==> Safe()
      ensures Played(position, committed, crashed) == PlayBatches(old(committed), polls)
    {
      Rejoin();
      for k := 0 to |polls|
        invariant Valid() && committed == position && old(handled) <= handled
        invariant maxAttempts >= 1 ==> Safe()
        invariant Played(position, committed, false) == PlayBatches(old(committed), polls[..k])
      {
        var ok := NextPoll(old(committed), polls, k);
        if !ok {
          return true;
        }
      }
      assert polls[..|polls|] == polls;
      crashed := false;
    }

    // ── how far a batch-mode session gets, and what it handles ──

    function ItemAt(d: Delivery, poll: Poll): Item
      requires InLog(d)
    {
      Item(d, log[d.partition][d.offset], poll.answers(d.partition, d.offset))
    }

    ghost predicate InPoll(n: nat, from: seq<nat>, to: seq<nat>, poll: Poll, it: Item) {
      it.at.partition < n && Delivered(from, to, it.at) && InLog(it.at) && it == ItemAt(it.at, poll)
    }

    /** A poll fetches each partition's records between the two offsets, and no others. */
    lemma {:induction false} FetchedAre(n: nat, from: seq<nat>, to: seq<nat>, poll: Poll)
      requires n <= |log| == |from| == |to|
      requires forall p :: 0 <= p < |log| ==> from[p] <= to[p] <= |log[p]|
      ensures forall it :: it in Fetched(n, from, to, poll) <==> InPoll(n, from, to, poll, it)
    {
      if n > 0 {
        FetchedAre(n - 1, from, to, poll);
        var p, items := n - 1, Fetched(n, from, to, poll);
        forall it | InPoll(n, from, to, poll, it) ensures it in items {
          if it.at.partition == p {
            var k := FetchedCovers(n, from, to, poll, p, it.at.offset);
            assert items[k].at == it.at;
            FetchedAnswers(n, from, to, poll, k);
          } else {
            assert it in Fetched(n - 1, from, to, poll);
          }
        }
        forall it | it in items ensures InPoll(n, from, to, poll, it) {
          var k :| 0 <= k < |items| && items[k] == it;
          FetchedAnswers(n, from, to, poll, k);
        }
      }
    }

    lemma {:induction false} FetchedAnswers(n: nat, from: seq<nat>, to: seq<nat>, poll: Poll, k: nat)
      requires n <= |log| == |from| == |to|
      requires forall p :: 0 <= p < |log| ==> from[p] <= to[p] <= |log[p]|
      requires k < |Fetched(n, from, to, poll)|
      ensures InPoll(n, from, to, poll, Fetched(n, from, to, poll)[k])
    {
      if n > 0 && k < |Fetched(n - 1, from, to, poll)| {
        FetchedAnswers(n - 1, from, to, poll, k);
      }
    }

    /** A partition's records come in the order of their offsets, in the poll and in the
        batch made of it. */
    ghost predicate InOffsetOrder(items: seq<Item>) {
      forall i, j :: 0 <= i < j < |items| && items[i].at.partition == items[j].at.partition ==> items[i].at.offset < items[j].at.offset
    }

    lemma {:induction false} FetchedInOrder(n: nat, from: seq<nat>, to: seq<nat>, poll: Poll)
      requires n <= |log| == |from| == |to|
      requires forall p :: 0 <= p < |log| ==> from[p] <= to[p] <= |log[p]|
      ensures InOffsetOrder(Fetched(n, from, to, poll))
    {
      if n > 0 {
        FetchedInOrder(n - 1, from, to, poll);
        var before, items := Fetched(n - 1, from, to, poll), Fetched(n, from, to, poll);
        forall i, j | 0 <= i < j < |items| && items[i].at.partition == items[j].at.partition
          ensures items[i].at.offset < items[j].at.offset
        {
          if i < |before| {
            FetchedAnswers(n - 1, from, to, poll, i);
            assert items[i] == before[i];
          }
        }
      }
    }

    lemma {:induction false} BatchInOrder(items: seq<Item>, n: nat)
      requires n <= |items| && InOffsetOrder(items)
      ensures InOffsetOrder(Decoded(items, n))
    {
      if n > 0 {
        BatchInOrder(items, n - 1);
        var before := Decoded(items, n - 1);
        forall i | 0 <= i < |before| && before[i].at.partition == items[n - 1].at.partition
          ensures before[i].at.offset < items[n - 1].at.offset
        {
          DecodedAreItems(items, n - 1);
          assert before[i] in before;
          var k :| 0 <= k < n - 1 && items[..n - 1][k] == before[i];
        }
      }
    }

    ghost predicate ForPoll(from: seq<nat>, to: seq<nat>, poll: Poll, q: Answer -> bool) {
      forall d :: Delivered(from, to, d) ==> q(poll.answers(d.partition, d.offset))
    }

    /** What holds of every record of a poll, told by deliveries or by the items fetched. */
    lemma ForItems(from: seq<nat>, poll: Poll, q: Answer -> bool)
      requires InRange(from)
      ensures var to := Ahead(from, poll);
              (forall it :: it in Fetched(|log|, from, to, poll) ==> q(it.answer)) <==> ForPoll(from, to, poll, q)
    {
      var to := Ahead(from, poll);
      var items := Fetched(|log|, from, to, poll);
      FetchedAre(|log|, from, to, poll);
      if forall it :: it in items ==> q(it.answer) {
        forall d | Delivered(from, to, d) ensures q(poll.answers(d.partition, d.offset)) {
          assert InPoll(|log|, from, to, poll, ItemAt(d, poll));
        }
      }
      if ForPoll(from, to, poll, q) {
        forall it | it in items ensures q(it.answer) {
          assert InPoll(|log|, from, to, poll, it);
        }
      }
    }

    /** What the world has to answer for a pass to get over a whole poll: every record is
        an event or parked as bad bytes, the events go through as one or one by one, and
        the commit goes through; where there is nothing, nothing is asked. */
    ghost predicate PollPasses(from: seq<nat>, to: seq<nat>, poll: Poll) {
      && ForPoll(from, to, poll, Readable)
      && (|| poll.whole.Done?
          || ForPoll(from, to, poll, Eventless)
          || (poll.whole.Fails? && ForPoll(from, to, poll, GotOver(maxAttempts))))
      && (poll.commits || ForPoll(from, to, poll, Absent))
    }

    lemma SurvivesItems(items: seq<Item>, whole: Reply)
      ensures Survives(items, whole) <==>
                && (forall it :: it in items ==> Decodes(it))
                && (whole.Done? || (forall it :: it in items ==> !it.answer.decoding.Event?)
                    || (whole.Fails? && forall it :: it in items ==> it.answer.decoding.Event? ==> TriesPass(it.answer, maxAttempts)))
    {
      var batch := Decoded(items, |items|);
      DecodedAreItems(items, |items|);
      assert items[..|items|] == items;
      assert forall it :: it in batch <==> it in items && it.answer.decoding.Event?;
      forall it | it in items ensures it.answer.decoding.Event? ==> (Stops(TriesOf(it.answer, maxAttempts)) <==> !TriesPass(it.answer, maxAttempts)) {
        PassesIff(it.answer, maxAttempts);
      }
      BatchPasses(items, batch);
    }

    lemma BatchPasses(items: seq<Item>, batch: seq<Item>)
      requires forall it :: it in batch <==> it in items && it.answer.decoding.Event?
      requires forall it :: it in items && it.answer.decoding.Event? ==>
                 (Stops(TriesOf(it.answer, maxAttempts)) <==> !TriesPass(it.answer, maxAttempts))
      ensures batch == [] <==> forall it :: it in items ==> !it.answer.decoding.Event?
      ensures NoneCrash(batch, maxAttempts) <==>
              forall it :: it in items ==> it.answer.decoding.Event? ==> TriesPass(it.answer, maxAttempts)
    {
      if batch != [] {
        assert batch[0] in batch;
      }
      if NoneCrash(batch, maxAttempts) {
        forall it | it in items && it.answer.decoding.Event? ensures TriesPass(it.answer, maxAttempts) {
          var i :| 0 <= i < |batch| && batch[i] == it;
        }
      } else {
        var i :| 0 <= i < |batch| && Stops(TriesOf(batch[i].answer, maxAttempts));
        assert batch[i] in batch;
      }
    }

    lemma SurvivesIff(from: seq<nat>, poll: Poll)
      requires InRange(from)
      ensures PollSurvives(from, poll) <==> PollPasses(from, Ahead(from, poll), poll)
    {
      var items := Fetched(|log|, from, Ahead(from, poll), poll);
      SurvivesItems(items, poll.whole);
      ForItems(from, poll, Readable);
      ForItems(from, poll, Eventless);
      ForItems(from, poll, GotOver(maxAttempts));
      ForItems(from, poll, Absent);
      if |items| > 0 {
        assert items[0] in items;
      }
    }

    /** What a poll that is got over handles and parks, record by record. */
    lemma PollHandles(from: seq<nat>, poll: Poll, d: Delivery)
      requires InRange(from)
      ensures var to := Ahead(from, poll);
              var items := Fetched(|log|, from, to, poll);
              d in HandledOf(Decoded(items, |items|), poll.whole, maxAttempts) <==>
                && Delivered(from, to, d)
                && var a := poll.answers(d.partition, d.offset);
                   a.decoding.Event? && (poll.whole.Done? || SomeAttemptSucceeds(a, 1, maxAttempts))
    {
      var to := Ahead(from, poll);
      var items := Fetched(|log|, from, to, poll);
      var batch := Decoded(items, |items|);
      FetchedAre(|log|, from, to, poll);
      DecodedAreItems(items, |items|);
      WinsAreItems(batch, |batch|, maxAttempts);
      AllAreItems(batch, d);
      assert items[..|items|] == items && batch[..|batch|] == batch;
      if Delivered(from, to, d) {
        assert InPoll(|log|, from, to, poll, ItemAt(d, poll));
        TriesSent(ItemAt(d, poll), Stamp(ItemAt(d, poll), 0));
      }
    }

    /** What the attempts at an event add, in terms of the answers. */
    lemma TriesSent(it: Item, g: Parked)
      requires IsItem(it)
      ensures TriesOf(it.answer, maxAttempts).Handled? <==> SomeAttemptSucceeds(it.answer, 1, maxAttempts)
      ensures g in Sent(it, TriesOf(it.answer, maxAttempts)) <==>
                && g.source == it.at && Verbatim(g) && it.answer.dlq != Raises(false)
                && maxAttempts >= 1 && EveryAttemptFails(it.answer, 1, maxAttempts) && g.attempts == maxAttempts
    {
      if maxAttempts >= 1 {
        TriesMeans(it.answer, 1, maxAttempts);
      }
    }

    lemma PollParks(from: seq<nat>, poll: Poll, g: Parked)
      requires InRange(from)
      ensures var to := Ahead(from, poll);
              var items := Fetched(|log|, from, to, poll);
              g in BadOnes(items, |items|) + GravesOf(Decoded(items, |items|), poll.whole, maxAttempts) <==>
                && Delivered(from, to, g.source) && Verbatim(g)
                && var a := poll.answers(g.source.partition, g.source.offset);
                   || (a.decoding.BadBytes? && g.attempts == 0)
                   || (a.decoding.Event? && !poll.whole.Done? && maxAttempts >= 1 && EveryAttemptFails(a, 1, maxAttempts)
                       && g.attempts == maxAttempts && a.dlq != Raises(false))
    {
      var to := Ahead(from, poll);
      var items := Fetched(|log|, from, to, poll);
      var batch := Decoded(items, |items|);
      FetchedAre(|log|, from, to, poll);
      DecodedAreItems(items, |items|);
      WinsAreItems(batch, |batch|, maxAttempts);
      assert items[..|items|] == items && batch[..|batch|] == batch;
      if Delivered(from, to, g.source) && InLog(g.source) {
        assert InPoll(|log|, from, to, poll, ItemAt(g.source, poll));
      }
      forall it | it in items ensures g in Sent(it, TriesOf(it.answer, maxAttempts)) ==> g.source == it.at {
        assert InPoll(|log|, from, to, poll, it);
      }
      if InLog(g.source) {
        TriesSent(ItemAt(g.source, poll), g);
      }
    }

    /** How many records the first n polls ask a partition for. */
    static function Asked(polls: seq<Poll>, n: nat, p: nat): nat
      requires n <= |polls|
    {
      if n == 0 then 0 else Asked(polls, n - 1, p) + if p < |polls[n - 1].take| then polls[n - 1].take[p] else 0
    }

    /** As far on as the polls ask, and no further than the partition's end. */
    function ReachBy(from: seq<nat>, polls: seq<Poll>, n: nat): (to: seq<nat>)
      requires InRange(from) && n <= |polls|
      ensures InRange(to)
    {
      seq(|log|, p requires 0 <= p < |log| && p < |from| =>
        if from[p] <= |log[p]| && Asked(polls, n, p) <= |log[p]| - from[p] then from[p] + Asked(polls, n, p) else |log[p]|)
    }

    ghost predicate PollHalts(from: seq<nat>, polls: seq<Poll>, k: nat)
      requires InRange(from) && k < |polls|
    {
      !PollPasses(ReachBy(from, polls, k), ReachBy(from, polls, k + 1), polls[k])
    }

    ghost predicate PollHaltsFirst(from: seq<nat>, polls: seq<Poll>, k: nat)
      requires InRange(from) && k < |polls|
    {
      PollHalts(from, polls, k) && forall j: nat :: j < k ==> !PollHalts(from, polls, j)
    }

    lemma AheadReaches(from: seq<nat>, polls: seq<Poll>, k: nat)
      requires InRange(from) && k < |polls|
      ensures Ahead(ReachBy(from, polls, k), polls[k]) == ReachBy(from, polls, k + 1)
    {
      var at, to := ReachBy(from, polls, k), ReachBy(from, polls, k + 1);
      forall p | 0 <= p < |log| ensures Ahead(at, polls[k])[p] == to[p] {
      }
    }

    lemma PollReaches(from: seq<nat>, polls: seq<Poll>, k: nat)
      requires InRange(from) && k < |polls|
      ensures var r := OnePoll(ReachBy(from, polls, k), polls[k]);
              && (r.crashed <==> PollHalts(from, polls, k))
              && (r.crashed ==> r.committed == ReachBy(from, polls, k))
              && (!r.crashed ==> r.position == r.committed == ReachBy(from, polls, k + 1))
    {
      AheadReaches(from, polls, k);
      SurvivesIff(ReachBy(from, polls, k), polls[k]);
    }

    ghost predicate ReachedOrHalted(from: seq<nat>, polls: seq<Poll>, n: nat, r: Played)
      requires InRange(from) && n <= |polls|
    {
      if r.crashed then exists k: nat :: k < n && PollHaltsFirst(from, polls, k) && r.committed == ReachBy(from, polls, k)
      else r.position == r.committed == ReachBy(from, polls, n) && forall k: nat :: k < n ==> !PollHalts(from, polls, k)
    }

    lemma OnePollMore(from: seq<nat>, polls: seq<Poll>, n: nat, before: Played, r: Played)
      requires InRange(from) && n < |polls| && ReachedOrHalted(from, polls, n, before)
      requires if before.crashed then r == before else r == OnePoll(ReachBy(from, polls, n), polls[n])
      ensures ReachedOrHalted(from, polls, n + 1, r)
    {
      if !before.crashed {
        PollReaches(from, polls, n);
        if r.crashed {
          assert PollHaltsFirst(from, polls, n);
        }
      }
    }

    lemma {:induction false} BatchesReachedAfter(from: seq<nat>, polls: seq<Poll>, n: nat)
      requires InRange(from) && n <= |polls|
      ensures ReachedOrHalted(from, polls, n, PlayBatches(from, polls[..n]))
    {
      if n == 0 {
        assert ReachBy(from, polls, 0) == from;
      } else {
        BatchesReachedAfter(from, polls, n - 1);
        BatchesStep(from, polls, n - 1);
        OnePollMore(from, polls, n - 1, PlayBatches(from, polls[..n - 1]), PlayBatches(from, polls[..n]));
      }
    }

    /** How far a batch-mode session gets, for any answers: it crashes iff some poll meets
        something that it does not get over or cannot commit; up to the first such poll, or
        to its end, every partition is committed as far as it was asked for. */
    lemma {:induction false} BatchesReach(from: seq<nat>, polls: seq<Poll>)
      requires InRange(from)
      ensures var r := PlayBatches(from, polls);
              && (r.crashed <==> exists k: nat :: k < |polls| && PollHalts(from, polls, k))
              && (!r.crashed ==> r.committed == ReachBy(from, polls, |polls|))
              && (forall k: nat :: k < |polls| && PollHaltsFirst(from, polls, k) ==> r.committed == ReachBy(from, polls, k))
    {
      assert polls[..|polls|] == polls;
      BatchesReachedAfter(from, polls, |polls|);
      var r := PlayBatches(from, polls);
      if r.crashed {
        var k: nat :| k < |polls| && PollHaltsFirst(from, polls, k) && r.committed == ReachBy(from, polls, k);
        forall j: nat | j < |polls| && PollHaltsFirst(from, polls, j) ensures j == k {
        }
      }
    }

    /** The committed offsets after a life of sessions. */
    ghost function Committed(from: seq<nat>, sessions: seq<Session>): (to: seq<nat>)
      requires InRange(from)
      ensures InRange(to)
    {
      if |sessions| == 0 then from
      else
        var before := Committed(from, sessions[..|sessions| - 1]);
        PlayOne(before, sessions[|sessions| - 1]).committed
    }

    ghost function PlayOne(from: seq<nat>, session: Session): (r: Played)
      requires InRange(from)
      ensures InRange(r.position) && InRange(r.committed)
    {
      match session
      case Singles(order, answers, commits) => PlaySingles(from, order, answers, commits)
      case Batches(polls) => PlayBatches(from, polls)
    }

    lemma {:induction false} CommittedGoesOn(from: seq<nat>, sessions: seq<Session>)
      requires InRange(from)
      ensures NoLess(from, Committed(from, sessions))
    {
      if |sessions| > 0 {
        var before := Committed(from, sessions[..|sessions| - 1]);
        CommittedGoesOn(from, sessions[..|sessions| - 1]);
        match sessions[|sessions| - 1]
        case Singles(order, answers, commits) => SinglesGoOn(before, order, answers, commits);
        case Batches(polls) => BatchesGoOn(before, polls);
      }
    }

    /** The service's life: session after session in either mode, a crashed one being
        followed by a fresh client. */
    method Live(sessions: seq<Session>)
      requires Valid() && (maxAttempts >= 1 ==> Safe())
      modifies this
      ensures Valid() && old(handled) <= handled
      ensures maxAttempts >= 1 ==> Safe()
      ensures committed == Committed(old(committed), sessions)
    {
      for k := 0 to |sessions|
        invariant Valid() && old(handled) <= handled
        invariant maxAttempts >= 1 ==> Safe()
        invariant committed == Committed(old(committed), sessions[..k])
      {
        assert sessions[..k + 1][..k] == sessions[..k];
        var crashed: bool;
        match sessions[k]
        case Singles(order, answers, commits) => crashed := ConsumeOnce(order, answers, commits);
        case Batches(polls) => crashed := ConsumeBatchesOnce(polls);
      }
      assert sessions[..|sessions|] == sessions;
    }
  }
}
