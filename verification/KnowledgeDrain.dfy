/** The knowledge index and its drain. A payload is modelled by what chunking makes
    of it (plus whatever chunking ignores, which the queue still compares); the
    embedding provider is a function from text to vector. Menu events keep arriving
    while the drain reads, embeds and writes. */
module KnowledgeDrain {
  import opened Options

  type Restaurant = string
  type Vector = seq<real>

  /** The restaurant's own chunk, or a dish. */
  datatype Key = Self | Dish(item: string)

  /** A chunk's embedded text, and the cheap columns beside it. */
  datatype Chunk = Chunk(key: Key, text: string, columns: string)

  /** What chunking makes of the restaurant itself, and of one listing of a dish. */
  datatype About = About(text: string, columns: string)

  datatype Listing = Listing(item: string, about: About)

  datatype Payload = Payload(indexable: bool, self: About, items: seq<Listing>, ignored: string)

  datatype Row = Row(chunk: Chunk, vector: Vector)

  type Shelf = map<Key, Row>

  function ListingChunk(l: Listing): Chunk { Chunk(Dish(l.item), l.about.text, l.about.columns) }

  function Chunks(p: Payload): seq<Chunk> {
    [Chunk(Self, p.self.text, p.self.columns)] + seq(|p.items|, i requires 0 <= i < |p.items| => ListingChunk(p.items[i]))
  }

  // ── what one pass writes ──

  function LastOf(chunks: seq<Chunk>): map<Key, Chunk> {
    if |chunks| == 0 then map[]
    else LastOf(chunks[..|chunks| - 1])[chunks[|chunks| - 1].key := chunks[|chunks| - 1]]
  }

  function Texts(shelf: Shelf): map<Key, string> { map k | k in shelf :: shelf[k].chunk.text }

  function Shown(shelf: Shelf): map<Key, Chunk> { map k | k in shelf :: shelf[k].chunk }

  /** The text differs from what is stored under the key. */
  predicate Differs(stored: map<Key, string>, c: Chunk) { !(c.key in stored && stored[c.key] == c.text) }

  function StaleTexts(chunks: seq<Chunk>, stored: map<Key, string>): set<string> {
    set i | 0 <= i < |chunks| && Differs(stored, chunks[i]) :: chunks[i].text
  }

  /** No vector: an UPDATE of the other columns. A vector: an upsert. */
  function Upsert(shelf: Shelf, c: Chunk, v: Option<Vector>): Shelf {
    match v
    case Some(vector) => shelf[c.key := Row(c, vector)]
    case None => if c.key in shelf then shelf[c.key := Row(c, shelf[c.key].vector)] else shelf
  }

  function Lookup(vectors: map<string, Vector>, text: string): Option<Vector> {
    if text in vectors then Some(vectors[text]) else None
  }

  function WriteAll(shelf: Shelf, chunks: seq<Chunk>, vectors: map<string, Vector>): Shelf {
    if |chunks| == 0 then shelf
    else
      var c := chunks[|chunks| - 1];
      Upsert(WriteAll(shelf, chunks[..|chunks| - 1], vectors), c, Lookup(vectors, c.text))
  }

  function Reconcile(shelf: Shelf, keep: set<Key>): Shelf { map k | k in shelf && k in keep :: shelf[k] }

  function Keys(chunks: seq<Chunk>): set<Key> { set i | 0 <= i < |chunks| :: chunks[i].key }

  /** The shelf after a pass over a payload's chunks. */
  function Replaced(shelf: Shelf, chunks: seq<Chunk>, vectors: map<string, Vector>): Shelf {
    Reconcile(WriteAll(shelf, chunks, vectors), Keys(chunks))
  }

  /** Every chunk written without a vector has a row to update. */
  predicate Covered(shelf: Shelf, chunks: seq<Chunk>, vectors: map<string, Vector>) {
    forall i :: 0 <= i < |chunks| ==> chunks[i].key in shelf || chunks[i].text in vectors
  }

  /** The chunk a key shows after the writes: the last one written, else the old one. */
  function ShownAt(k: Key, shelf: Shelf, chunks: seq<Chunk>): Option<Chunk> {
    if k in LastOf(chunks) then Some(LastOf(chunks)[k]) else if k in shelf then Some(shelf[k].chunk) else None
  }

  lemma {:induction false} WriteAllShows(k: Key, shelf: Shelf, chunks: seq<Chunk>, vectors: map<string, Vector>)
    requires Covered(shelf, chunks, vectors)
    ensures var after := WriteAll(shelf, chunks, vectors);
            ShownAt(k, shelf, chunks) == if k in after then Some(after[k].chunk) else None
  {
    if |chunks| > 0 {
      WriteAllShows(k, shelf, chunks[..|chunks| - 1], vectors);
    }
  }

  lemma {:induction false} LastOfKeys(chunks: seq<Chunk>)
    ensures LastOf(chunks).Keys == Keys(chunks)
  {
    if |chunks| > 0 {
      LastOfKeys(chunks[..|chunks| - 1]);
      KeysStep(chunks);
    }
  }

  lemma KeysStep(chunks: seq<Chunk>)
    requires |chunks| > 0
    ensures Keys(chunks) == Keys(chunks[..|chunks| - 1]) + {chunks[|chunks| - 1].key}
  {
    var before := chunks[..|chunks| - 1];
    forall k | k in Keys(chunks) ensures k in Keys(before) + {chunks[|chunks| - 1].key} {
      var i :| 0 <= i < |chunks| && chunks[i].key == k;
      assert i < |before| ==> before[i].key == k;
    }
    forall k | k in Keys(before) ensures k in Keys(chunks) {
      var i :| 0 <= i < |before| && before[i].key == k;
      assert chunks[i].key == k;
    }
  }

  /** The shelf shows exactly the payload's chunks. */
  predicate Displays(shelf: Shelf, p: Payload) { Shown(shelf) == LastOf(Chunks(p)) }

  lemma {:induction false} LastOfIs(chunks: seq<Chunk>, i: nat)
    requires i < |chunks| && forall j :: i < j < |chunks| ==> chunks[j].key != chunks[i].key
    ensures chunks[i].key in LastOf(chunks) && LastOf(chunks)[chunks[i].key] == chunks[i]
  {
    if i < |chunks| - 1 {
      LastOfIs(chunks[..|chunks| - 1], i);
    }
  }

  /** The last listing of its dish. */
  predicate LastListing(p: Payload, i: nat) {
    i < |p.items| && forall j :: i < j < |p.items| ==> p.items[j].item != p.items[i].item
  }

  lemma KeysOfPayload(p: Payload)
    ensures forall k :: k in Keys(Chunks(p)) <==> k == Self || exists i :: 0 <= i < |p.items| && k == Dish(p.items[i].item)
  {
    var chunks := Chunks(p);
    assert chunks[0].key == Self;
    forall k | k in Keys(chunks) ensures k == Self || exists i :: 0 <= i < |p.items| && k == Dish(p.items[i].item) {
      var i :| 0 <= i < |chunks| && chunks[i].key == k;
      assert i > 0 ==> k == Dish(p.items[i - 1].item);
    }
    forall i | 0 <= i < |p.items| ensures Dish(p.items[i].item) in Keys(chunks) {
      assert chunks[i + 1].key == Dish(p.items[i].item);
    }
  }

  lemma {:induction false} LastListingOf(p: Payload, i: nat, n: nat) returns (j: nat)
    requires i < n <= |p.items|
    ensures i <= j < n && p.items[j].item == p.items[i].item && forall h :: j < h < n ==> p.items[h].item != p.items[i].item
    decreases n
  {
    if p.items[n - 1].item == p.items[i].item {
      j := n - 1;
    } else {
      j := LastListingOf(p, i, n - 1);
    }
  }

  lemma LastOfPayload(p: Payload, k: Key) returns (j: nat)
    requires k in LastOf(Chunks(p))
    ensures || (k == Self && LastOf(Chunks(p))[k] == Chunk(Self, p.self.text, p.self.columns))
            || (LastListing(p, j) && k == Dish(p.items[j].item) && LastOf(Chunks(p))[k] == ListingChunk(p.items[j]))
  {
    LastOfKeys(Chunks(p));
    KeysOfPayload(p);
    if k == Self {
      j := 0;
      LastOfIs(Chunks(p), 0);
    } else {
      var i: nat :| i < |p.items| && k == Dish(p.items[i].item);
      j := LastListingOf(p, i, |p.items|);
      LastListingIs(p, j);
    }
  }

  lemma LastListingIs(p: Payload, i: nat)
    requires LastListing(p, i)
    ensures Dish(p.items[i].item) in LastOf(Chunks(p)) && LastOf(Chunks(p))[Dish(p.items[i].item)] == ListingChunk(p.items[i])
  {
    var chunks := Chunks(p);
    assert chunks[i + 1] == ListingChunk(p.items[i]);
    forall j | i + 1 < j < |chunks| ensures chunks[j].key != chunks[i + 1].key {
      assert chunks[j] == ListingChunk(p.items[j - 1]);
    }
    LastOfIs(chunks, i + 1);
  }

  /** The shelf has the restaurant's own chunk and one per listed dish and no other, the
      restaurant's with its text and columns, each dish's with those of its last listing. */
  ghost predicate ShowsPayload(shelf: Shelf, p: Payload) {
    && (forall k :: k in shelf <==> k == Self || exists i :: 0 <= i < |p.items| && k == Dish(p.items[i].item))
    && (Self in shelf && shelf[Self].chunk == Chunk(Self, p.self.text, p.self.columns))
    && (forall i: nat :: LastListing(p, i) ==>
          Dish(p.items[i].item) in shelf
          && shelf[Dish(p.items[i].item)].chunk
             == Chunk(Dish(p.items[i].item), p.items[i].about.text, p.items[i].about.columns))
  }

  /** What `Displays` says of the payload's own fields. */
  lemma DisplaysIff(shelf: Shelf, p: Payload)
    ensures Displays(shelf, p) <==> ShowsPayload(shelf, p)
  {
    var last := LastOf(Chunks(p));
    LastOfKeys(Chunks(p));
    KeysOfPayload(p);
    if Displays(shelf, p) {
      forall k ensures k in shelf <==> k in last
        ensures k in shelf ==> shelf[k].chunk == last[k]
      {
        assert k in Shown(shelf) <==> k in shelf;
      }
      LastOfIs(Chunks(p), 0);
      forall i: nat | LastListing(p, i) ensures last[Dish(p.items[i].item)] == ListingChunk(p.items[i]) {
        LastListingIs(p, i);
      }
    }
    if ShowsPayload(shelf, p) {
      forall k ensures k in Shown(shelf) <==> k in last
        ensures k in last ==> Shown(shelf)[k] == last[k]
      {
        if k in last {
          var j := LastOfPayload(p, k);
        }
      }
    }
  }

  /** A menu gives each key one text iff no two listings of a dish differ in theirs. */
  lemma OneTextIff(p: Payload)
    ensures OneTextPerKey(Chunks(p)) <==>
            forall i, j :: 0 <= i < j < |p.items| && p.items[i].item == p.items[j].item ==> p.items[i].about.text == p.items[j].about.text
  {
    var chunks := Chunks(p);
    assert forall i {:trigger p.items[i]} :: 0 <= i < |p.items| ==> chunks[i + 1] == ListingChunk(p.items[i]);
    if OneTextPerKey(chunks) {
      forall i, j | 0 <= i < j < |p.items| && p.items[i].item == p.items[j].item ensures p.items[i].about.text == p.items[j].about.text {
        assert chunks[i + 1].key == chunks[j + 1].key;
      }
    } else {
      var i, j :| 0 <= i < j < |chunks| && chunks[i].key == chunks[j].key && chunks[i].text != chunks[j].text;
      assert chunks[i] == ListingChunk(p.items[i - 1]) && chunks[j] == ListingChunk(p.items[j - 1]);
    }
  }

  /** After a pass the shelf shows exactly the payload's chunks, the last one winning
      where a key repeats; nothing of an earlier menu is left. */
  lemma PassShowsThePayload(shelf: Shelf, chunks: seq<Chunk>, vectors: map<string, Vector>)
    requires Covered(shelf, chunks, vectors)
    ensures Shown(Replaced(shelf, chunks, vectors)) == LastOf(chunks)
  {
    LastOfKeys(chunks);
    var kept := Replaced(shelf, chunks, vectors);
    forall k ensures k in kept <==> k in LastOf(chunks)
      ensures k in kept ==> kept[k].chunk == LastOf(chunks)[k]
    {
      WriteAllShows(k, shelf, chunks, vectors);
    }
  }

  // ── whose embedding a row ends up with ──

  ghost predicate Honest(shelf: Shelf, embed: string -> Vector) {
    forall k :: k in shelf ==> shelf[k].vector == embed(shelf[k].chunk.text)
  }

  ghost predicate Embeds(vectors: map<string, Vector>, texts: set<string>, embed: string -> Vector) {
    vectors.Keys == texts && forall t :: t in texts ==> vectors[t] == embed(t)
  }

  /** The text whose vector the row of `k` carries after the first n writes: the last
      one written with a vector, else the one stored before. */
  function Source(k: Key, stored: map<Key, string>, chunks: seq<Chunk>, embedded: set<string>): Option<string> {
    if |chunks| == 0 then if k in stored then Some(stored[k]) else None
    else
      var c := chunks[|chunks| - 1];
      if c.key == k && c.text in embedded then Some(c.text) else Source(k, stored, chunks[..|chunks| - 1], embedded)
  }

  lemma {:induction false} VectorComesFrom(k: Key, shelf: Shelf, chunks: seq<Chunk>, vectors: map<string, Vector>, embed: string -> Vector)
    requires Honest(shelf, embed) && Embeds(vectors, vectors.Keys, embed)
    ensures var after := WriteAll(shelf, chunks, vectors);
            var from := Source(k, Texts(shelf), chunks, vectors.Keys);
            (k in after <==> from.Some?) && (k in after ==> after[k].vector == embed(from.value))
  {
    if |chunks| > 0 {
      VectorComesFrom(k, shelf, chunks[..|chunks| - 1], vectors, embed);
    }
  }

  /** A chunk is spoilt when its text is the stored one and is embedded for no other
      chunk of the pass, and its key carries some other text as well: that other text
      is embedded and written, and the UPDATE that follows keeps its vector. */
  ghost predicate Spoilt(k: Key, stored: map<Key, string>, chunks: seq<Chunk>) {
    && k in LastOf(chunks) && k in stored && stored[k] == LastOf(chunks)[k].text
    && stored[k] !in StaleTexts(chunks, stored)
    && exists i :: 0 <= i < |chunks| && chunks[i].key == k && chunks[i].text != stored[k]
  }

  lemma {:induction false} SourceIs(k: Key, stored: map<Key, string>, chunks: seq<Chunk>, embedded: set<string>)
    requires forall i :: 0 <= i < |chunks| && Differs(stored, chunks[i]) ==> chunks[i].text in embedded
    ensures k in LastOf(chunks) && LastOf(chunks)[k].text in embedded ==> Source(k, stored, chunks, embedded) == Some(LastOf(chunks)[k].text)
    ensures k in stored && stored[k] !in embedded ==>
              (Source(k, stored, chunks, embedded) == Some(stored[k])
               <==> forall i :: 0 <= i < |chunks| && chunks[i].key == k ==> chunks[i].text == stored[k])
  {
    if |chunks| > 0 {
      var before, c := chunks[..|chunks| - 1], chunks[|chunks| - 1];
      assert forall i :: 0 <= i < |before| ==> before[i] == chunks[i];
      SourceIs(k, stored, before, embedded);
    }
  }

  lemma LastIsAChunk(k: Key, chunks: seq<Chunk>) returns (i: nat)
    requires k in LastOf(chunks)
    ensures i < |chunks| && chunks[i] == LastOf(chunks)[k] && chunks[i].key == k
  {
    if chunks[|chunks| - 1].key == k {
      i := |chunks| - 1;
    } else {
      i := LastIsAChunk(k, chunks[..|chunks| - 1]);
    }
  }

  /** A spoilt chunk is wronged if the provider tells the two texts apart: the one its
      row ends up with the vector of, and the one it shows. */
  ghost predicate Wronged(k: Key, stored: map<Key, string>, chunks: seq<Chunk>, embed: string -> Vector) {
    && Spoilt(k, stored, chunks)
    && var from := Source(k, stored, chunks, StaleTexts(chunks, stored));
       from.Some? && embed(from.value) != embed(stored[k])
  }

  lemma KeyIsHonestIffNotWronged(k: Key, shelf: Shelf, chunks: seq<Chunk>, vectors: map<string, Vector>, embed: string -> Vector)
    requires Honest(shelf, embed)
    requires Embeds(vectors, StaleTexts(chunks, Texts(shelf)), embed)
    requires Covered(shelf, chunks, vectors) && k in LastOf(chunks)
    ensures var after := WriteAll(shelf, chunks, vectors);
            && k in after && after[k].chunk == LastOf(chunks)[k]
            && (after[k].vector == embed(after[k].chunk.text) <==> !Wronged(k, Texts(shelf), chunks, embed))
  {
    var stored, after := Texts(shelf), WriteAll(shelf, chunks, vectors);
    WriteAllShows(k, shelf, chunks, vectors);
    VectorComesFrom(k, shelf, chunks, vectors, embed);
    SourceIs(k, stored, chunks, vectors.Keys);
    var i := LastIsAChunk(k, chunks);
    assert !Differs(stored, chunks[i]) || chunks[i].text in StaleTexts(chunks, stored);
  }

  /** One pass over an honest shelf leaves it honest iff no chunk is wronged. */
  lemma PassIsHonestIffNothingWronged(shelf: Shelf, chunks: seq<Chunk>, vectors: map<string, Vector>, embed: string -> Vector)
    requires Honest(shelf, embed)
    requires Embeds(vectors, StaleTexts(chunks, Texts(shelf)), embed) && Covered(shelf, chunks, vectors)
    ensures Honest(Replaced(shelf, chunks, vectors), embed) <==> forall k :: !Wronged(k, Texts(shelf), chunks, embed)
  {
    var kept := Replaced(shelf, chunks, vectors);
    LastOfKeys(chunks);
    forall k | k in LastOf(chunks)
      ensures k in kept && (kept[k].vector == embed(kept[k].chunk.text) <==> !Wronged(k, Texts(shelf), chunks, embed))
    {
      KeyIsHonestIffNotWronged(k, shelf, chunks, vectors, embed);
    }
    assert forall k :: k in kept <==> k in LastOf(chunks);
  }

  predicate OneTextPerKey(chunks: seq<Chunk>) {
    forall i, j :: 0 <= i < j < |chunks| && chunks[i].key == chunks[j].key ==> chunks[i].text == chunks[j].text
  }

  lemma OneTextSpoilsNothing(chunks: seq<Chunk>, stored: map<Key, string>, k: Key)
    requires OneTextPerKey(chunks)
    ensures !Spoilt(k, stored, chunks)
  {
    if Spoilt(k, stored, chunks) {
      var j := LastIsAChunk(k, chunks);
    }
  }

  /** The menus that are safe over whatever honest shelf they meet are exactly those
      that give each key one text. */
  lemma SafeMenus(chunks: seq<Chunk>)
    ensures OneTextPerKey(chunks) <==> forall stored: map<Key, string>, k :: !Spoilt(k, stored, chunks)
  {
    if OneTextPerKey(chunks) {
      forall stored: map<Key, string>, k ensures !Spoilt(k, stored, chunks) {
        OneTextSpoilsNothing(chunks, stored, k);
      }
    } else {
      var i, j :| 0 <= i < j < |chunks| && chunks[i].key == chunks[j].key && chunks[i].text != chunks[j].text;
      var k := chunks[i].key;
      LastOfKeys(chunks);
      assert k in Keys(chunks);
      var t := LastOf(chunks)[k].text;
      var stored: map<Key, string> := map key | key in Keys(chunks) :: t;
      assert forall n :: 0 <= n < |chunks| ==> chunks[n].key in stored;
      assert chunks[i].text != t || chunks[j].text != t;
      assert Spoilt(k, stored, chunks);
    }
  }

  /** A vector map that covers the stale texts covers the writes. */
  lemma StaleCovers(shelf: Shelf, chunks: seq<Chunk>, vectors: map<string, Vector>)
    requires StaleTexts(chunks, Texts(shelf)) <= vectors.Keys
    ensures Covered(shelf, chunks, vectors)
  {
    forall i | 0 <= i < |chunks| ensures chunks[i].key in shelf || chunks[i].text in vectors {
      assert Differs(Texts(shelf), chunks[i]) ==> chunks[i].text in StaleTexts(chunks, Texts(shelf));
    }
  }

  function EmbedAll(texts: set<string>, embed: string -> Vector): map<string, Vector> { map t | t in texts :: embed(t) }

  function Pass(shelf: Shelf, chunks: seq<Chunk>, embed: string -> Vector): Shelf {
    Replaced(shelf, chunks, EmbedAll(StaleTexts(chunks, Texts(shelf)), embed))
  }

  /** What one pass with freshly computed vectors does. */
  lemma PassFacts(shelf: Shelf, chunks: seq<Chunk>, embed: string -> Vector)
    ensures Shown(Pass(shelf, chunks, embed)) == LastOf(chunks)
    ensures Honest(shelf, embed) ==>
              (Honest(Pass(shelf, chunks, embed), embed) <==> forall k :: !Wronged(k, Texts(shelf), chunks, embed))
    ensures Honest(shelf, embed) && OneTextPerKey(chunks) ==> Honest(Pass(shelf, chunks, embed), embed)
  {
    var vectors := EmbedAll(StaleTexts(chunks, Texts(shelf)), embed);
    StaleCovers(shelf, chunks, vectors);
    PassShowsThePayload(shelf, chunks, vectors);
    if Honest(shelf, embed) {
      PassIsHonestIffNothingWronged(shelf, chunks, vectors, embed);
      if OneTextPerKey(chunks) {
        forall k ensures !Wronged(k, Texts(shelf), chunks, embed) { OneTextSpoilsNothing(chunks, Texts(shelf), k); }
      }
    }
  }

  /** As far as the index goes: it shows the menu, and a wholesome menu keeps it honest. */
  lemma PassShows(shelf: Shelf, chunks: seq<Chunk>, embed: string -> Vector)
    ensures Shown(Pass(shelf, chunks, embed)) == LastOf(chunks)
    ensures Honest(shelf, embed) && OneTextPerKey(chunks) ==> Honest(Pass(shelf, chunks, embed), embed)
  {
    PassFacts(shelf, chunks, embed);
  }

  function LastTexts(chunks: seq<Chunk>): map<Key, string> { map k | k in LastOf(chunks) :: LastOf(chunks)[k].text }

  /** The first pass over an empty shelf is right for every menu. Draining the very
      same menu once more is right iff nothing is wronged over its own last texts. */
  lemma {:induction false} RedrainIsHonestIff(menu: seq<Chunk>, embed: string -> Vector)
    ensures var once := Pass(map[], menu, embed);
            && Honest(once, embed)
            && (Honest(Pass(once, menu, embed), embed) <==> forall k :: !Wronged(k, LastTexts(menu), menu, embed))
  {
    var once := Pass(map[], menu, embed);
    PassFacts(map[], menu, embed);
    assert Texts(once) == LastTexts(menu) by {
      forall k ensures k in once <==> k in LastOf(menu)
        ensures k in once ==> once[k].chunk == LastOf(menu)[k]
      {
        assert k in Shown(once) <==> k in once;
      }
    }
    PassFacts(once, menu, embed);
  }

  /** A dish listed twice with two texts that the provider tells apart is wronged: the
      second pass embeds the first text, writes it, and updates the row to the second
      without a vector. */
  lemma SecondPassSpoilsTheVector(house: Chunk, hot: Chunk, cold: Chunk, embed: string -> Vector)
    requires house.key == Self && hot.key == cold.key != Self && embed(hot.text) != embed(cold.text)
    ensures var menu := [house, hot, cold];
            !Honest(Pass(Pass(map[], menu, embed), menu, embed), embed)
  {
    var menu := [house, hot, cold];
    assert menu[..2] == [house, hot] && menu[..2][..1] == [house] && menu[..2][..1][..0] == [];
    assert LastOf([house]) == map[Self := house];
    assert LastOf([house, hot]) == map[Self := house, hot.key := hot];
    assert LastOf(menu) == map[Self := house, cold.key := cold];
    var stored := LastTexts(menu);
    var stale := StaleTexts(menu, stored);
    assert menu[1].text in stale && cold.text !in stale;
    assert Source(cold.key, stored, [house, hot], stale) == Some(hot.text);
    assert Spoilt(cold.key, stored, menu) && Wronged(cold.key, stored, menu, embed);
    RedrainIsHonestIff(menu, embed);
  }

  // ── the queue and the drain ──

  datatype Arrival = Arrival(restaurant: Restaurant, payload: Payload)

  predicate Distinct(due: seq<Restaurant>) { forall i, j :: 0 <= i < j < |due| ==> due[i] != due[j] }

  predicate AllWholesome(arrivals: seq<Arrival>) {
    forall i :: 0 <= i < |arrivals| ==> OneTextPerKey(Chunks(arrivals[i].payload))
  }

  /** What happens around one tick: menu events before it and during each of its
      embedding calls, the rows it finds due, and where the provider fails. */
  datatype Round = Round(before: seq<Arrival>, due: seq<Restaurant>, meanwhile: nat -> seq<Arrival>, failsAt: nat)

  ghost predicate WholesomeRound(round: Round) {
    AllWholesome(round.before) && forall n: nat :: AllWholesome(round.meanwhile(n))
  }

  class KnowledgeIndex {
    const embed: string -> Vector
    var pending: map<Restaurant, Payload>
    var latest: map<Restaurant, Payload>      // history: the last indexable payload of each restaurant
    var index: map<Restaurant, Shelf>

    constructor (embed: string -> Vector)
      ensures this.embed == embed && Fresh() && Truthful()
      ensures pending == map[] && latest == map[] && index == map[]
    {
      this.embed := embed;
      pending, latest, index := map[], map[], map[];
    }

    function ShelfOf(r: Restaurant): Shelf reads this`index { if r in index then index[r] else map[] }

    predicate Shows(r: Restaurant, p: Payload) reads this`index { Displays(ShelfOf(r), p) }

    /** Each restaurant's latest payload is still queued, or the index shows it. */
    ghost predicate Fresh() reads this {
      && (forall r :: r in pending ==> r in latest && pending[r] == latest[r])
      && (forall r :: r in latest ==> r in pending || Shows(r, latest[r]))
      && (forall r :: r in latest ==> latest[r].indexable)
    }

    /** Every stored vector is the embedding of its stored text. */
    ghost predicate Truthful() reads this`index { forall r :: r in index ==> Honest(index[r], embed) }

    /** No queued menu gives one key two texts. */
    ghost predicate Wholesome() reads this`pending { forall r :: r in pending ==> OneTextPerKey(Chunks(pending[r])) }

    /** A menu event: a full snapshot supersedes whatever is queued. */
    method Stage(r: Restaurant, p: Payload)
      requires Fresh()
      modifies this`pending, this`latest
      ensures Fresh()
      ensures pending == if p.indexable then old(pending)[r := p] else old(pending)
      ensures latest == if p.indexable then old(latest)[r := p] else old(latest)
    {
      if p.indexable {
        pending, latest := pending[r := p], latest[r := p];
      }
    }

    method Arrive(arrivals: seq<Arrival>)
      requires Fresh()
      modifies this`pending, this`latest
      ensures Fresh() && old(pending.Keys) <= pending.Keys
      ensures arrivals == [] ==> pending == old(pending) && latest == old(latest)
      ensures old(Wholesome()) && AllWholesome(arrivals) ==> Wholesome()
    {
      for i := 0 to |arrivals|
        invariant Fresh() && old(pending.Keys) <= pending.Keys
        invariant arrivals == [] ==> pending == old(pending) && latest == old(latest)
        invariant old(Wholesome()) && AllWholesome(arrivals) ==> Wholesome()
      {
        Stage(arrivals[i].restaurant, arrivals[i].payload);
      }
    }

    /** Delete the queued row if it still holds the payload that was drained. */
    method Complete(r: Restaurant, p: Payload) returns (kept: bool)
      modifies this`pending
      ensures kept <==> r in old(pending) && old(pending)[r] == p
      ensures pending == if kept then old(pending) - {r} else old(pending)
    {
      kept := r in pending && pending[r] == p;
      if kept {
        pending := pending - {r};
      }
    }

    /** The texts to embed: those that differ from what is stored, each once. */
    method Stale(chunks: seq<Chunk>, stored: map<Key, string>) returns (texts: seq<string>)
      ensures forall t :: t in texts <==> t in StaleTexts(chunks, stored)
      ensures forall i, j :: 0 <= i < j < |texts| ==> texts[i] != texts[j]
    {
      texts := [];
      for i := 0 to |chunks|
        invariant forall t :: t in texts <==> exists n :: 0 <= n < i && Differs(stored, chunks[n]) && chunks[n].text == t
        invariant forall i, j :: 0 <= i < j < |texts| ==> texts[i] != texts[j]
      {
        if Differs(stored, chunks[i]) && chunks[i].text !in texts {
          texts := texts + [chunks[i].text];
        }
      }
    }

    /** The writes of one transaction, then the reconcile. */
    method ReplaceRestaurant(r: Restaurant, chunks: seq<Chunk>, vectors: map<string, Vector>)
      modifies this`index
      ensures index == old(index)[r := Replaced(old(ShelfOf(r)), chunks, vectors)]
    {
      var shelf := ShelfOf(r);
      for i := 0 to |chunks|
        invariant shelf == WriteAll(old(ShelfOf(r)), chunks[..i], vectors)
      {
        assert chunks[..i + 1][..i] == chunks[..i];
        shelf := Upsert(shelf, chunks[i], Lookup(vectors, chunks[i].text));
      }
      assert chunks[..|chunks|] == chunks;
      index := index[r := Reconcile(shelf, Keys(chunks))];
    }

    /** The drain's second transaction: replace the restaurant's chunks, then delete
        the queued row under its guard. */
    method Land(r: Restaurant, p: Payload, vectors: map<string, Vector>)
      requires Fresh() && r in pending
      requires vectors == EmbedAll(StaleTexts(Chunks(p), Texts(ShelfOf(r))), embed)
      modifies this`index, this`pending
      ensures Fresh() && Shows(r, p)
      ensures index == old(index)[r := Pass(old(ShelfOf(r)), Chunks(p), embed)]
      ensures pending == if old(pending)[r] == p then old(pending) - {r} else old(pending)
      ensures old(Truthful()) && OneTextPerKey(Chunks(p)) ==> Truthful()
    {
      Replace(r, p, vectors);
      var kept := Complete(r, p);
    }

    /** Its first half: the index shows the payload, and the row is still queued. */
    method Replace(r: Restaurant, p: Payload, vectors: map<string, Vector>)
      requires Fresh() && r in pending
      requires vectors == EmbedAll(StaleTexts(Chunks(p), Texts(ShelfOf(r))), embed)
      modifies this`index
      ensures Fresh() && Shows(r, p)
      ensures index == old(index)[r := Pass(old(ShelfOf(r)), Chunks(p), embed)]
      ensures old(Truthful()) && OneTextPerKey(Chunks(p)) ==> Truthful()
    {
      PassShows(ShelfOf(r), Chunks(p), embed);
      ReplaceRestaurant(r, Chunks(p), vectors);
      forall q | q in latest && q !in pending ensures Shows(q, latest[q]) {
        assert old(Shows(q, latest[q]));
        assert ShelfOf(q) == old(ShelfOf(q));
      }
    }

    /** Drain one queued row that was read some time ago. Menu events arrive while the
        provider embeds, and the provider may fail. */
    method DrainOne(r: Restaurant, p: Payload, meanwhile: seq<Arrival>, embedFails: bool) returns (ok: bool)
      requires Fresh() && r in pending
      modifies this
      ensures Fresh() && old(pending.Keys) - {r} <= pending.Keys
      ensures ok == (!p.indexable || !embedFails)
      ensures index == if ok && p.indexable then old(index)[r := Pass(old(ShelfOf(r)), Chunks(p), embed)] else old(index)
      ensures ok && p.indexable ==> Shows(r, p)
      ensures !ok ==> r in pending
      // the row goes unless it was staged anew with something else
      ensures ok && r in pending ==> pending[r] != p
      ensures ok && meanwhile == [] && old(pending)[r] == p ==> pending == old(pending) - {r}
      ensures old(Wholesome()) && AllWholesome(meanwhile) ==> Wholesome()
      ensures old(Truthful()) && OneTextPerKey(Chunks(p)) ==> Truthful()
    {
      if !p.indexable {
        var _ := Complete(r, p);
        return true;
      }
      var stored := Texts(ShelfOf(r));
      var texts := Stale(Chunks(p), stored);
      Arrive(meanwhile);
      if embedFails {
        return false;
      }
      var vectors := map t | t in texts :: embed(t);
      assert vectors == EmbedAll(StaleTexts(Chunks(p), stored), embed);
      Land(r, p, vectors);
      ok := true;
    }

    /** The same as one step of a tick: the row is shown or stays queued, and no other
        restaurant's shelf is touched. */
    method DrainDue(r: Restaurant, p: Payload, meanwhile: seq<Arrival>, embedFails: bool) returns (ok: bool)
      requires Fresh() && r in pending && p.indexable
      modifies this
      ensures Fresh() && old(pending.Keys) - {r} <= pending.Keys
      ensures ok == !embedFails
      ensures if ok then Shows(r, p) else r in pending
      ensures forall q :: q != r ==> ShelfOf(q) == old(ShelfOf(q))
      ensures old(Wholesome()) && AllWholesome(meanwhile) ==> Wholesome()
      ensures old(Truthful()) && OneTextPerKey(Chunks(p)) ==> Truthful()
    {
      ok := DrainOne(r, p, meanwhile, embedFails);
    }

    predicate Selectable(due: seq<Restaurant>) reads this {
      (forall i :: 0 <= i < |due| ==> due[i] in pending) && Distinct(due)
    }

    /** The first k rows of a tick are shown, the others are still queued. */
    predicate Progress(due: seq<Restaurant>, rows: map<Restaurant, Payload>, k: nat) reads this {
      && (forall i :: 0 <= i < k && i < |due| && due[i] in rows ==> Shows(due[i], rows[due[i]]))
      && (forall i :: k <= i < |due| ==> due[i] in pending)
    }

    /** The next row of a tick. */
    method TickStep(due: seq<Restaurant>, rows: map<Restaurant, Payload>, k: nat, meanwhile: seq<Arrival>, fails: bool)
      returns (ok: bool)
      requires Fresh() && Distinct(due) && k < |due| && due[k] in rows && rows[due[k]].indexable && Progress(due, rows, k)
      modifies this
      ensures Fresh() && ok == !fails && Progress(due, rows, if ok then k + 1 else k)
      ensures old(Wholesome()) && AllWholesome(meanwhile) ==> Wholesome()
      ensures old(Truthful()) && OneTextPerKey(Chunks(rows[due[k]])) ==> Truthful()
    {
      ok := DrainDue(due[k], rows[due[k]], meanwhile, fails);
    }

    /** One tick over some of the queued rows, as they were when it began. It stops at
        the first failure: the rows before it are shown, the others stay queued. */
    method Tick(due: seq<Restaurant>, meanwhile: nat -> seq<Arrival>, failsAt: nat) returns (drained: nat)
      requires Fresh() && Selectable(due)
      modifies this
      ensures Fresh() && drained == if failsAt < |due| then failsAt else |due|
      ensures Progress(due, old(pending), drained)
      ensures old(Truthful() && Wholesome()) && (forall n: nat :: AllWholesome(meanwhile(n))) ==> Truthful() && Wholesome()
    {
      var rows := pending;
      ghost var clean := Truthful() && Wholesome() && forall n: nat :: AllWholesome(meanwhile(n));
      drained := 0;
      while drained < |due|
        invariant Fresh() && drained <= |due| && drained <= failsAt
        invariant forall i :: 0 <= i < |due| ==> due[i] in rows && rows[due[i]].indexable
        invariant Progress(due, rows, drained)
        invariant clean ==> Truthful() && Wholesome()
      {
        assert clean ==> OneTextPerKey(Chunks(rows[due[drained]])) && AllWholesome(meanwhile(drained));
        var ok := TickStep(due, rows, drained, meanwhile(drained), drained == failsAt);
        if !ok {
          return;
        }
        drained := drained + 1;
      }
    }

    /** Every run: the index is fresh throughout, and truthful as long as no menu event
        gives one key two texts. */
    method Live(rounds: seq<Round>)
      requires Fresh()
      modifies this
      ensures Fresh()
      ensures old(Truthful() && Wholesome()) && (forall i :: 0 <= i < |rounds| ==> WholesomeRound(rounds[i])) ==> Truthful()
    {
      for i := 0 to |rounds|
        invariant Fresh()
        invariant old(Truthful() && Wholesome()) && (forall i :: 0 <= i < |rounds| ==> WholesomeRound(rounds[i])) ==> Truthful() && Wholesome()
      {
        Arrive(rounds[i].before);
        if Selectable(rounds[i].due) {
          var _ := Tick(rounds[i].due, rounds[i].meanwhile, rounds[i].failsAt);
        }
      }
    }
  }
}
