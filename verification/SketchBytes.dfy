/** The binary form of a sketch (src/l0_sampling/sketch.cpp): little-endian integers, 8 bytes for an
    index and `w` for a checksum, either all buckets or only those that are not empty. */
module SketchBytes {
  import opened Bits
  import opened Sketches

  type Byte = x: nat | x < 256

  const INDEX := 8   // sizeof(vec_t)
  const POS := 2     // sizeof(uint16_t)

  /** What a read leaves: a value and the bytes after it. The stream may also be too short, or
      name a bucket that does not exist. */
  datatype Parsed<T> = Done(value: T, rest: seq<Byte>) | Malformed

  // ---------- integers ----------

  function Bytes(x: nat, w: nat): (r: seq<Byte>)
    ensures |r| == w
  {
    if w == 0 then [] else [x % 256] + Bytes(x / 256, w - 1)
  }

  function Value(bytes: seq<Byte>): nat
  {
    if bytes == [] then 0 else bytes[0] + 256 * Value(bytes[1..])
  }

  function Space(w: nat): nat
  {
    if w == 0 then 1 else 256 * Space(w - 1)
  }

  lemma {:induction false} ValueOfBytes(x: nat, w: nat)
    requires x < Space(w)
    ensures Value(Bytes(x, w)) == x
  {
    if w > 0 {
      ValueOfBytes(x / 256, w - 1);
      assert Bytes(x, w)[1..] == Bytes(x / 256, w - 1);
    }
  }

  function ParseInt(w: nat, data: seq<Byte>): Parsed<nat>
  {
    if |data| < w then Malformed else Done(Value(data[..w]), data[w..])
  }

  lemma IntRoundTrip(x: nat, w: nat, rest: seq<Byte>)
    requires x < Space(w)
    ensures ParseInt(w, Bytes(x, w) + rest) == Done(x, rest)
  {
    var data := Bytes(x, w) + rest;
    assert data[..w] == Bytes(x, w) && data[w..] == rest;
    ValueOfBytes(x, w);
  }

  // ---------- all buckets ----------

  /** The memory of an array of integers. */
  function Ints(xs: seq<nat>, w: nat): (r: seq<Byte>)
    ensures |r| == |xs| * w
  {
    if xs == [] then [] else Bytes(xs[0], w) + Ints(xs[1..], w)
  }

  function ParseInts(count: nat, w: nat, data: seq<Byte>): (r: Parsed<seq<nat>>)
    ensures r.Done? ==> |r.value| == count
  {
    if count == 0 then Done([], data)
    else
      match ParseInt(w, data)
      case Malformed => Malformed
      case Done(x, rest) =>
        match ParseInts(count - 1, w, rest)
        case Malformed => Malformed
        case Done(xs, rest') => Done([x] + xs, rest')
  }

  lemma {:induction false} IntsRoundTrip(xs: seq<nat>, w: nat, rest: seq<Byte>)
    requires forall i | 0 <= i < |xs| :: xs[i] < Space(w)
    ensures ParseInts(|xs|, w, Ints(xs, w) + rest) == Done(xs, rest)
  {
    if xs == [] {
      assert Ints(xs, w) + rest == rest;
    } else {
      var tail := Ints(xs[1..], w) + rest;
      Regroup(Bytes(xs[0], w), Ints(xs[1..], w), rest);
      IntRoundTrip(xs[0], w, tail);
      IntsRoundTrip(xs[1..], w, rest);
      assert [xs[0]] + xs[1..] == xs;
    }
  }

  /** Values that do not fit are cut off, but as many bytes are read as were written. */
  lemma {:induction false} IntsTakeTheirBytes(xs: seq<nat>, w: nat, rest: seq<Byte>)
    ensures var r := ParseInts(|xs|, w, Ints(xs, w) + rest);
      r.Done? && r.rest == rest
  {
    if xs == [] {
      assert Ints(xs, w) + rest == rest;
    } else {
      var tail := Ints(xs[1..], w) + rest;
      Regroup(Bytes(xs[0], w), Ints(xs[1..], w), rest);
      assert (Bytes(xs[0], w) + tail)[w..] == tail;
      IntsTakeTheirBytes(xs[1..], w, rest);
    }
  }

  function Indices(bs: seq<Bucket>): seq<nat>
  {
    seq(|bs|, i requires 0 <= i < |bs| => bs[i].a)
  }

  function Checksums(bs: seq<Bucket>): seq<nat>
  {
    seq(|bs|, i requires 0 <= i < |bs| => bs[i].c)
  }

  /** The values fit their fields. */
  predicate Fits(w: nat, b: Bucket)
  {
    b.a < Space(INDEX) && b.c < Space(w)
  }

  predicate AllFit(w: nat, bs: seq<Bucket>)
  {
    forall i | 0 <= i < |bs| :: Fits(w, bs[i])
  }

  lemma {:induction false} SpaceInBits(w: nat)
    ensures Space(w) == Pow2(8 * w)
  {
    if w > 0 {
      SpaceInBits(w - 1);
      EightMore(8 * (w - 1));
    }
  }

  lemma EightMore(k: nat)
    ensures Pow2(k + 8) == 256 * Pow2(k)
  {
    assert Pow2(k + 2) == 4 * Pow2(k) && Pow2(k + 4) == 4 * Pow2(k + 2);
    assert Pow2(k + 6) == 4 * Pow2(k + 4) && Pow2(k + 8) == 4 * Pow2(k + 6);
  }

  /** The sum of buckets that fit fits: exclusive or does not widen a word. */
  lemma PlusFits(w: nat, x: Bucket, y: Bucket)
    requires Fits(w, x) && Fits(w, y)
    ensures Fits(w, Plus(x, y))
  {
    SpaceInBits(INDEX);
    SpaceInBits(w);
    XorBound(x.a, y.a, 8 * INDEX);
    XorBound(x.c, y.c, 8 * w);
  }

  /** However many indices a sketch has taken in, each bucket fits its two fields. */
  lemma {:induction false} FoldFits(cfg: Config, w: nat, seed: nat, s: set<nat>)
    requires forall x | x in s :: Fits(w, Single(cfg, seed, x))
    ensures Fits(w, Fold(cfg, seed, s))
  {
    if s == {} {
      SpaceInBits(INDEX);
      SpaceInBits(w);
    } else {
      var x :| x in s && Fold(cfg, seed, s) == Plus(Single(cfg, seed, x), Fold(cfg, seed, s - {x}));
      FoldFits(cfg, w, seed, s - {x});
      PlusFits(w, Single(cfg, seed, x), Fold(cfg, seed, s - {x}));
    }
  }

  function DenseBytes(w: nat, bs: seq<Bucket>): (r: seq<Byte>)
    ensures |r| == |bs| * (INDEX + w)
  {
    Ints(Indices(bs), INDEX) + Ints(Checksums(bs), w)
  }

  function ParseDense(w: nat, n: nat, data: seq<Byte>): Parsed<seq<Bucket>>
  {
    match ParseInts(n, INDEX, data)
    case Malformed => Malformed
    case Done(xs, rest) =>
      match ParseInts(n, w, rest)
      case Malformed => Malformed
      case Done(cs, rest') => Done(seq(n, i requires 0 <= i < n => Bucket(xs[i], cs[i])), rest')
  }

  /** Reading undoes writing, and takes no more than was written. */
  lemma DenseRoundTrip(w: nat, bs: seq<Bucket>, rest: seq<Byte>)
    requires AllFit(w, bs)
    ensures ParseDense(w, |bs|, DenseBytes(w, bs) + rest) == Done(bs, rest)
  {
    var xs, cs := Indices(bs), Checksums(bs);
    assert DenseBytes(w, bs) + rest == Ints(xs, INDEX) + (Ints(cs, w) + rest);
    IntsRoundTrip(xs, INDEX, Ints(cs, w) + rest);
    IntsRoundTrip(cs, w, rest);
    assert bs == seq(|bs|, i requires 0 <= i < |bs| => Bucket(xs[i], cs[i]));
  }

  lemma {:induction false} IntsSplit(xs: seq<nat>, w: nat, i: nat)
    requires i < |xs|
    ensures Ints(xs, w) == Ints(xs[..i], w) + (Bytes(xs[i], w) + Ints(xs[i + 1..], w))
  {
    if i == 0 {
      assert xs[..0] == [] && Ints(xs, w) == [] + Ints(xs, w);
    } else {
      IntsSplit(xs[1..], w, i - 1);
      assert xs[..i][1..] == xs[1..][..i - 1] && xs[1..][i - 1 + 1..] == xs[i + 1..];
      Regroup(Bytes(xs[0], w), Ints(xs[1..][..i - 1], w), Bytes(xs[i], w) + Ints(xs[i + 1..], w));
    }
  }

  /** All indices come first, 8 bytes each, and then all checksums, w bytes each. */
  lemma DenseLayout(w: nat, bs: seq<Bucket>, i: nat)
    requires i < |bs|
    ensures var xs, cs := Indices(bs), Checksums(bs);
      DenseBytes(w, bs) ==
        (Ints(xs[..i], 8) + (Bytes(bs[i].a, 8) + Ints(xs[i + 1..], 8))) + (Ints(cs[..i], w) + (Bytes(bs[i].c, w) + Ints(cs[i + 1..], w)))
  {
    IntsSplit(Indices(bs), 8, i);
    IntsSplit(Checksums(bs), w, i);
  }

  lemma OneRow(i: nat, w: nat)
    ensures (i + 1) * w == i * w + w
  {}

  lemma DenseTakesItsBytes(w: nat, bs: seq<Bucket>, rest: seq<Byte>)
    ensures var r := ParseDense(w, |bs|, DenseBytes(w, bs) + rest);
      r.Done? && r.rest == rest && |r.value| == |bs|
  {
    var xs, cs := Indices(bs), Checksums(bs);
    assert DenseBytes(w, bs) + rest == Ints(xs, INDEX) + (Ints(cs, w) + rest);
    IntsTakeTheirBytes(xs, INDEX, Ints(cs, w) + rest);
    IntsTakeTheirBytes(cs, w, rest);
  }

  // ---------- only the buckets in use ----------

  function Entry(w: nat, i: nat, b: Bucket): seq<Byte>
  {
    Bytes(i, POS) + (Bytes(b.a, INDEX) + Bytes(b.c, w))
  }

  /** The entries from position i on; the deterministic bucket is always there, and ends the sketch. */
  function SparseFrom(w: nat, bs: seq<Bucket>, i: nat): seq<Byte>
    requires i < |bs|
    decreases |bs| - i
  {
    if i == |bs| - 1 then Entry(w, i, bs[i])
    else if bs[i] == EMPTY then SparseFrom(w, bs, i + 1)
    else Entry(w, i, bs[i]) + SparseFrom(w, bs, i + 1)
  }

  function SparseBytes(w: nat, bs: seq<Bucket>): seq<Byte>
    requires bs != []
  {
    SparseFrom(w, bs, 0)
  }

  function ParseBucket(w: nat, data: seq<Byte>): Parsed<Bucket>
  {
    match ParseInt(INDEX, data)
    case Malformed => Malformed
    case Done(a, rest) =>
      match ParseInt(w, rest)
      case Malformed => Malformed
      case Done(c, rest') => Done(Bucket(a, c), rest')
  }

  /** Read entries over what is already there until the last bucket has come. */
  function ParseEntries(w: nat, bs: seq<Bucket>, data: seq<Byte>): Parsed<seq<Bucket>>
    decreases |data|
  {
    match ParseInt(POS, data)
    case Malformed => Malformed
    case Done(i, rest) =>
      if i >= |bs| then Malformed
      else
        match ParseBucket(w, rest)
        case Malformed => Malformed
        case Done(b, rest') =>
          if i == |bs| - 1 then Done(bs[i := b], rest') else ParseEntries(w, bs[i := b], rest')
  }

  function Zeros(n: nat): seq<Bucket>
  {
    seq(n, i => EMPTY)
  }

  function ParseSparse(w: nat, n: nat, data: seq<Byte>): Parsed<seq<Bucket>>
  {
    ParseEntries(w, Zeros(n), data)
  }

  lemma BucketRoundTrip(w: nat, b: Bucket, rest: seq<Byte>)
    requires Fits(w, b)
    ensures ParseBucket(w, (Bytes(b.a, INDEX) + Bytes(b.c, w)) + rest) == Done(b, rest)
  {
    assert (Bytes(b.a, INDEX) + Bytes(b.c, w)) + rest == Bytes(b.a, INDEX) + (Bytes(b.c, w) + rest);
    IntRoundTrip(b.a, INDEX, Bytes(b.c, w) + rest);
    IntRoundTrip(b.c, w, rest);
  }

  lemma EntryParses(w: nat, bs: seq<Bucket>, i: nat, b: Bucket, rest: seq<Byte>)
    requires i < |bs| <= Space(POS) && Fits(w, b)
    ensures ParseEntries(w, bs, Entry(w, i, b) + rest) ==
      if i == |bs| - 1 then Done(bs[i := b], rest) else ParseEntries(w, bs[i := b], rest)
  {
    var body := Bytes(b.a, INDEX) + Bytes(b.c, w);
    assert Entry(w, i, b) + rest == Bytes(i, POS) + (body + rest);
    IntRoundTrip(i, POS, body + rest);
    BucketRoundTrip(w, b, rest);
  }

  /** The first i buckets have been read, and the others are blank. */
  ghost predicate ReadSoFar(bs: seq<Bucket>, acc: seq<Bucket>, i: nat)
  {
    |acc| == |bs| && forall k | 0 <= k < |bs| :: acc[k] == if k < i then bs[k] else EMPTY
  }

  lemma ReadOneBucket(bs: seq<Bucket>, acc: seq<Bucket>, i: nat)
    requires i < |bs| && ReadSoFar(bs, acc, i)
    ensures ReadSoFar(bs, acc[i := bs[i]], i + 1) && (bs[i] == EMPTY ==> ReadSoFar(bs, acc, i + 1))
    ensures i == |bs| - 1 ==> acc[i := bs[i]] == bs
  {
  }

  lemma {:induction false} EntriesRoundTrip(w: nat, bs: seq<Bucket>, i: nat, acc: seq<Bucket>, rest: seq<Byte>)
    requires i < |bs| <= Space(POS) && AllFit(w, bs) && ReadSoFar(bs, acc, i)
    ensures ParseEntries(w, acc, SparseFrom(w, bs, i) + rest) == Done(bs, rest)
    decreases |bs| - i
  {
    ReadOneBucket(bs, acc, i);
    NextEntry(w, bs, i, acc, rest);
    if i < |bs| - 1 {
      EntriesRoundTrip(w, bs, i + 1, if bs[i] == EMPTY then acc else acc[i := bs[i]], rest);
    }
  }

  /** The buckets from i on that sparse output has to mention. */
  ghost function UsedFrom(bs: seq<Bucket>, i: nat): set<nat>
  {
    set k: nat | i <= k < |bs| && (bs[k] != EMPTY || k == |bs| - 1)
  }

  /** Sparse output has one entry for each non-empty bucket, and one for the last in any case. */
  lemma {:induction false} SparseSize(w: nat, bs: seq<Bucket>, i: nat, entry: nat)
    requires i < |bs| && entry == 2 + 8 + w
    ensures |SparseFrom(w, bs, i)| == |UsedFrom(bs, i)| * entry
    decreases |bs| - i
  {
    EntrySize(w, i, bs[i]);
    if i == |bs| - 1 {
      assert UsedFrom(bs, i) == {i};
    } else {
      SparseSize(w, bs, i + 1, entry);
      MoreUsed(bs, i);
      OneRow(|UsedFrom(bs, i + 1)|, entry);
    }
  }

  lemma EntrySize(w: nat, i: nat, b: Bucket)
    ensures |Entry(w, i, b)| == 2 + 8 + w
  {}

  lemma MoreUsed(bs: seq<Bucket>, i: nat)
    requires i < |bs| - 1
    ensures |UsedFrom(bs, i)| == |UsedFrom(bs, i + 1)| + if bs[i] == EMPTY then 0 else 1
  {
    var rest := UsedFrom(bs, i + 1);
    if bs[i] == EMPTY {
      assert UsedFrom(bs, i) == rest;
    } else {
      assert UsedFrom(bs, i) == rest + {i} && i !in rest;
    }
  }

  lemma NextEntry(w: nat, bs: seq<Bucket>, i: nat, acc: seq<Bucket>, rest: seq<Byte>)
    requires i < |bs| == |acc| <= Space(POS) && Fits(w, bs[i])
    ensures ParseEntries(w, acc, SparseFrom(w, bs, i) + rest) ==
      if i == |bs| - 1 then Done(acc[i := bs[i]], rest)
      else ParseEntries(w, if bs[i] == EMPTY then acc else acc[i := bs[i]], SparseFrom(w, bs, i + 1) + rest)
  {
    if i == |bs| - 1 {
      EntryParses(w, acc, i, bs[i], rest);
    } else if bs[i] != EMPTY {
      Regroup(Entry(w, i, bs[i]), SparseFrom(w, bs, i + 1), rest);
      EntryParses(w, acc, i, bs[i], SparseFrom(w, bs, i + 1) + rest);
    }
  }

  /** The same for the sparse form, as long as positions fit into 16 bits. */
  lemma SparseRoundTrip(w: nat, bs: seq<Bucket>, rest: seq<Byte>)
    requires 0 < |bs| <= Space(POS) && AllFit(w, bs)
    ensures ParseSparse(w, |bs|, SparseBytes(w, bs) + rest) == Done(bs, rest)
  {
    EntriesRoundTrip(w, bs, 0, Zeros(|bs|), rest);
  }

  // ---------- the loops ----------

  /** write_sparse_binary. Its counter has 16 bits, so with more buckets it would not end. */
  method WriteSparse(w: nat, bs: seq<Bucket>) returns (out: seq<Byte>)
    requires 0 < |bs| <= Space(POS)
    ensures out == SparseBytes(w, bs)
  {
    out := [];
    var i := 0;
    while i < |bs| - 1
      invariant i < |bs| && out + SparseFrom(w, bs, i) == SparseBytes(w, bs)
    {
      if bs[i] != EMPTY {
        Regroup(out, Entry(w, i, bs[i]), SparseFrom(w, bs, i + 1));
        out := out + Entry(w, i, bs[i]);
      }
      i := i + 1;
    }
    out := out + Entry(w, i, bs[i]);
  }

  lemma Regroup(a: seq<Byte>, b: seq<Byte>, c: seq<Byte>)
    ensures a + (b + c) == (a + b) + c
  {}

  /** The sparse reading loop, on any input. */
  method ReadSparse(w: nat, n: nat, data: seq<Byte>) returns (r: Parsed<seq<Bucket>>)
    ensures r == ParseSparse(w, n, data)
  {
    var bs, left := Zeros(n), data;
    while true
      invariant |bs| == n && ParseSparse(w, n, data) == ParseEntries(w, bs, left)
      decreases |left|
    {
      var pos := ParseInt(POS, left);
      if pos.Malformed? || pos.value >= n { return Malformed; }
      var b := ParseBucket(w, pos.rest);
      if b.Malformed? { return Malformed; }
      bs, left := bs[pos.value := b.value], b.rest;
      if pos.value == n - 1 { return Done(bs, left); }
    }
  }
}
