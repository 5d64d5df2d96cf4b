/** Last-write-wins under replay. A stream of column maps may be emitted again
    from any earlier point, any number of times; as long as it is then emitted
    through to its end, the merged row is the row of the stream itself. */
module Replay {

  type Columns = map<string, string>

  /** The in-order merge: later writes overwrite, earlier columns stay. */
  function Merge(src: seq<Columns>): Columns {
    if |src| == 0 then map[] else Merge(src[..|src| - 1]) + src[|src| - 1]
  }

  predicate SameAt(a: Columns, b: Columns, c: string) {
    (c in a <==> c in b) && (c in a ==> a[c] == b[c])
  }

  /** Column c of the row comes from a write at or after position `at`. */
  ghost predicate FromLater(src: seq<Columns>, at: nat, row: Columns, c: string) {
    exists w: nat :: at <= w < |src| && c in src[w] && c in row && row[c] == src[w][c]
  }

  /** A row that has been fed `src` up to `at`, possibly after an earlier pass had
      already gone further: its column c is either what the prefix makes of it or a
      left-over from beyond. */
  ghost predicate Behind(src: seq<Columns>, at: nat, row: Columns, c: string) {
    at <= |src| && (SameAt(row, Merge(src[..at]), c) || FromLater(src, at, row, c))
  }

  lemma Fresh(src: seq<Columns>, c: string)
    ensures Behind(src, 0, map[], c)
  {
  }

  /** Either the suffix of a prefix wrote c last, or it did not write c at all. */
  lemma {:induction false} LastWriter(src: seq<Columns>, i: nat, at: nat, c: string)
    requires i <= at <= |src|
    ensures SameAt(Merge(src[..at]), Merge(src[..i]), c)
            || exists w: nat :: i <= w < at && c in src[w] && c in Merge(src[..at]) && Merge(src[..at])[c] == src[w][c]
  {
    if i < at {
      assert src[..at][..at - 1] == src[..at - 1];
      LastWriter(src, i, at - 1, c);
      if c in src[at - 1] {
        assert Merge(src[..at])[c] == src[at - 1][c];
      } else {
        assert SameAt(Merge(src[..at]), Merge(src[..at - 1]), c);
      }
    }
  }

  /** Going back keeps the row explicable. */
  lemma Rewind(src: seq<Columns>, at: nat, i: nat, row: Columns, c: string)
    requires i <= at && Behind(src, at, row, c)
    ensures Behind(src, i, row, c)
  {
    if !FromLater(src, at, row, c) {
      LastWriter(src, i, at, c);
      if !SameAt(Merge(src[..at]), Merge(src[..i]), c) {
        var w: nat :| i <= w < at && c in src[w] && c in Merge(src[..at]) && Merge(src[..at])[c] == src[w][c];
        assert FromLater(src, i, row, c);
      }
    }
  }

  /** Emitting the next element moves on. */
  lemma Emit(src: seq<Columns>, at: nat, row: Columns, c: string)
    requires at < |src| && Behind(src, at, row, c)
    ensures Behind(src, at + 1, row + src[at], c)
  {
    assert src[..at + 1][..at] == src[..at];
    if c !in src[at] && FromLater(src, at, row, c) {
      var w: nat :| at <= w < |src| && c in src[w] && c in row && row[c] == src[w][c];
      assert at + 1 <= w;
    }
  }

  /** Emitting something beyond changes only left-overs. */
  lemma EmitBeyond(src: seq<Columns>, at: nat, i: nat, row: Columns, c: string)
    requires at <= i < |src| && Behind(src, at, row, c)
    ensures Behind(src, at, row + src[i], c)
  {
    if c in src[i] {
      assert FromLater(src, at, row + src[i], c);
    } else if FromLater(src, at, row, c) {
      var w: nat :| at <= w < |src| && c in src[w] && c in row && row[c] == src[w][c];
      assert FromLater(src, at, row + src[i], c);
    }
  }

  /** The stream may grow meanwhile. */
  lemma Grow(src: seq<Columns>, more: seq<Columns>, at: nat, row: Columns, c: string)
    requires Behind(src, at, row, c)
    ensures Behind(src + more, at, row, c)
  {
    assert (src + more)[..at] == src[..at];
    if FromLater(src, at, row, c) {
      var w: nat :| at <= w < |src| && c in src[w] && c in row && row[c] == src[w][c];
      assert (src + more)[w] == src[w];
    }
  }

  /** At the end there is nothing left over. */
  lemma Through(src: seq<Columns>, row: Columns)
    requires forall c :: Behind(src, |src|, row, c)
    ensures row == Merge(src)
  {
    assert src[..|src|] == src;
    var merged := Merge(src);
    forall c ensures SameAt(row, merged, c) {
      assert Behind(src, |src|, row, c);
    }
    SameEverywhere(row, merged);
  }

  // ── any schedule at all ──

  /** What is written when the elements of the stream are emitted in the order h. */
  function Pick(src: seq<Columns>, h: seq<nat>): seq<Columns> {
    seq(|h|, i requires 0 <= i < |h| => if h[i] < |src| then src[h[i]] else map[])
  }

  /** Position i is the last time n is emitted. */
  ghost predicate LastAt(h: seq<nat>, n: nat, i: nat) {
    i < |h| && h[i] == n && forall j :: i < j < |h| ==> h[j] != n
  }

  /** Every element is emitted, and the last times are in order. */
  ghost predicate InOrder(h: seq<nat>, size: nat) {
    && (forall n: nat :: n < size ==> n in h)
    && (forall n: nat, m: nat, i: nat, j: nat :: n < m < size && LastAt(h, n, i) && LastAt(h, m, j) ==> i < j)
  }

  lemma {:induction false} LastTime(h: seq<nat>, n: nat) returns (i: nat)
    requires n in h
    ensures LastAt(h, n, i)
  {
    if h[|h| - 1] == n {
      i := |h| - 1;
    } else {
      i := LastTime(h[..|h| - 1], n);
    }
  }

  /** A merged column is the one written last. */
  lemma {:induction false} LastWriteWins(src: seq<Columns>, c: string, w: nat)
    requires w < |src| && c in src[w] && forall j :: w < j < |src| ==> c !in src[j]
    ensures c in Merge(src) && Merge(src)[c] == src[w][c]
  {
    if w < |src| - 1 {
      LastWriteWins(src[..|src| - 1], c, w);
    }
  }

  lemma {:induction false} NeverWritten(src: seq<Columns>, c: string)
    requires forall j :: 0 <= j < |src| ==> c !in src[j]
    ensures c !in Merge(src)
  {
    if |src| > 0 {
      NeverWritten(src[..|src| - 1], c);
    }
  }

  lemma {:induction false} LastWriterOf(src: seq<Columns>, c: string) returns (w: nat)
    requires exists j :: 0 <= j < |src| && c in src[j]
    ensures w < |src| && c in src[w] && forall j :: w < j < |src| ==> c !in src[j]
  {
    if c in src[|src| - 1] {
      w := |src| - 1;
    } else {
      w := LastWriterOf(src[..|src| - 1], c);
    }
  }

  /** The last time the last writer of c is emitted, nothing after it writes c. */
  lemma NothingAfter(src: seq<Columns>, h: seq<nat>, c: string, w: nat, i: nat, k: nat)
    requires InOrder(h, |src|) && w < |src| && (forall j :: w < j < |src| ==> c !in src[j])
    requires LastAt(h, w, i) && i < k < |h|
    ensures c !in Pick(src, h)[k]
  {
    if h[k] < w {
      var l := LastTime(h, h[k]);
    }
  }

  lemma InOrderAt(src: seq<Columns>, h: seq<nat>, c: string)
    requires InOrder(h, |src|)
    ensures SameAt(Merge(Pick(src, h)), Merge(src), c)
  {
    if j :| 0 <= j < |src| && c in src[j] {
      var w := LastWriterOf(src, c);
      var i := LastTime(h, w);
      forall k | i < k < |h| ensures c !in Pick(src, h)[k] {
        NothingAfter(src, h, c, w, i, k);
      }
      LastWriteWins(src, c, w);
      LastWriteWins(Pick(src, h), c, i);
    } else {
      NeverWritten(src, c);
      NeverWritten(Pick(src, h), c);
    }
  }

  /** A schedule whose last times are in order gives the row of the stream. */
  lemma InOrderMerges(src: seq<Columns>, h: seq<nat>)
    requires InOrder(h, |src|)
    ensures Merge(Pick(src, h)) == Merge(src)
  {
    forall c ensures SameAt(Merge(Pick(src, h)), Merge(src), c) {
      InOrderAt(src, h, c);
    }
    SameEverywhere(Merge(Pick(src, h)), Merge(src));
  }

  lemma SameEverywhere(a: Columns, b: Columns)
    requires forall c :: SameAt(a, b, c)
    ensures a == b
  {
    forall c ensures (c in a <==> c in b) && (c in a ==> a[c] == b[c]) {
      assert SameAt(a, b, c);
    }
  }

  /** And no other schedule does for every stream: what was never emitted is missing,
      and what was emitted too late overwrites its successor. */
  lemma OutOfOrderLoses(h: seq<nat>, size: nat) returns (src: seq<Columns>)
    requires !InOrder(h, size)
    ensures |src| == size && Merge(Pick(src, h)) != Merge(src)
  {
    if n: nat :| n < size && n !in h {
      src := seq(size, k => if k == n then map["c" := "new"] else map[]);
      LastWriteWins(src, "c", n);
      NeverWritten(Pick(src, h), "c");
    } else {
      var n: nat, m: nat, i: nat, j: nat :| n < m < size && LastAt(h, n, i) && LastAt(h, m, j) && j <= i;
      src := seq(size, k => if k == m then map["c" := "new"] else if k == n then map["c" := "old"] else map[]);
      LastWriteWins(src, "c", m);
      LastWriteWins(Pick(src, h), "c", i);
      assert Merge(src)["c"] == "new" && Merge(Pick(src, h))["c"] == "old";
      assert "new"[0] != "old"[0];
    }
  }
}
