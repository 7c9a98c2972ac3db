/** The binary form of a supernode (src/supernode.cpp): whole, or a range of its sketches. */
module SupernodeBytes {
  import opened Basics
  import opened Sketches
  import opened Supernodes
  import opened SketchBytes

  const WORD := 4                  // sizeof(uint32_t), and of the type tag
  const WRAP := 0x1_0000_0000      // 32-bit arithmetic

  datatype SerialType = FULL | PARTIAL | SPARSE

  function Tag(t: SerialType): nat
  {
    match t
    case FULL => 0
    case PARTIAL => 1
    case SPARSE => 2
  }

  /** A supernode as read: the memory slots that have been given a sketch. */
  datatype Loaded = Loaded(sampleIdx: nat, numSketches: nat, slots: map<nat, Sketch>)

  // ---------- writing ----------

  function SketchData(w: nat, k: Sketch, sparse: bool): seq<Byte>
    requires k.buckets != []
  {
    if sparse then SparseBytes(w, k.buckets) else DenseBytes(w, k.buckets)
  }

  predicate HaveBuckets(ks: seq<Sketch>)
  {
    forall i | 0 <= i < |ks| :: ks[i].buckets != []
  }

  /** The sketches from lo up to hi, one after the other. */
  function RangeData(w: nat, ks: seq<Sketch>, lo: nat, hi: nat, sparse: bool): seq<Byte>
    requires HaveBuckets(ks) && (lo < hi ==> hi <= |ks|)
    decreases hi - lo
  {
    if lo >= hi then [] else SketchData(w, ks[lo], sparse) + RangeData(w, ks, lo + 1, hi, sparse)
  }

  /** write_binary; the tag is FULL whether or not the sketches are sparse. */
  function FullData(w: nat, s: Supernode, sparse: bool): seq<Byte>
    requires HaveBuckets(s.sketches)
  {
    Bytes(Tag(FULL), WORD) + RangeData(w, s.sketches, 0, |s.sketches|, sparse)
  }

  /** The sum of two 32-bit integers. */
  function Add32(a: nat, b: nat): nat
  {
    if a + b < WRAP then a + b else a + b - WRAP
  }

  /** The range that write_binary_range settles on, and its end, in 32-bit arithmetic. */
  datatype Clamped = Clamped(beg: nat, num: nat, end: nat)

  function Clamp(count: nat, beg: nat, num: nat): (r: Clamped)
    requires 0 < count < WRAP && num < WRAP
    ensures r.beg < count && r.num < WRAP && r.end == Add32(r.beg, r.num) && (r.beg < r.end ==> r.end <= count)
  {
    var b := if beg >= count then count - 1 else beg;
    var m := if Add32(b, num) > count then count - b else num;
    var m' := if m == 0 then 1 else m;
    Clamped(b, m', Add32(b, m'))
  }

  function RangeTag(sparse: bool): nat
  {
    Tag(if sparse then SPARSE else PARTIAL)
  }

  function PartialData(w: nat, s: Supernode, beg: nat, num: nat, sparse: bool): seq<Byte>
    requires HaveBuckets(s.sketches) && 0 < |s.sketches| < WRAP && num < WRAP
  {
    var c := Clamp(|s.sketches|, beg, num);
    Bytes(RangeTag(sparse), WORD) +
      (Bytes(c.beg, WORD) + (Bytes(c.num, WORD) + RangeData(w, s.sketches, c.beg, c.end, sparse)))
  }

  // ---------- reading ----------

  function Blank(cfg: Config, k: nat): Sketch
  {
    Sketch(SeedOf(cfg, k), Zeros(NumElems(cfg)), false)
  }

  /** Blank sketches into slots lo up to hi; k counts the sketches made so far, which fixes the seed. */
  function PlaceBlank(cfg: Config, slots: map<nat, Sketch>, lo: nat, hi: nat, k: nat): map<nat, Sketch>
    decreases hi - lo
  {
    if lo >= hi then slots else PlaceBlank(cfg, slots[lo := Blank(cfg, k)], lo + 1, hi, k + 1)
  }

  function ParseSketch(cfg: Config, w: nat, sparse: bool, k: nat, data: seq<Byte>): Parsed<Sketch>
  {
    match if sparse then ParseSparse(w, NumElems(cfg), data) else ParseDense(w, NumElems(cfg), data)
    case Malformed => Malformed
    case Done(bs, rest) => Done(Sketch(SeedOf(cfg, k), bs, false), rest)
  }

  function PlaceRead(cfg: Config, w: nat, sparse: bool, slots: map<nat, Sketch>, lo: nat, hi: nat, k: nat, data: seq<Byte>)
    : Parsed<map<nat, Sketch>>
    decreases hi - lo
  {
    if lo >= hi then Done(slots, data)
    else
      match ParseSketch(cfg, w, sparse, k, data)
      case Malformed => Malformed
      case Done(sketch, rest) => PlaceRead(cfg, w, sparse, slots[lo := sketch], lo + 1, hi, k + 1, rest)
  }

  /** Fill the slots: blanks before the range, the range itself, blanks after it. */
  function FillSlots(cfg: Config, w: nat, sparse: bool, beg: nat, end: nat, data: seq<Byte>): Parsed<Loaded>
  {
    var blanks := PlaceBlank(cfg, map[], 0, beg, 0);
    match PlaceRead(cfg, w, sparse, blanks, beg, end, beg, data)
    case Malformed => Malformed
    case Done(slots, rest) =>
      Done(Loaded(beg, end, PlaceBlank(cfg, slots, end, cfg.sketches, Max(beg, end))), rest)
  }

  function ParseRange(data: seq<Byte>): Parsed<(nat, nat)>
  {
    match ParseInt(WORD, data)
    case Malformed => Malformed
    case Done(beg, rest) =>
      match ParseInt(WORD, rest)
      case Malformed => Malformed
      case Done(num, rest') => Done((beg, num), rest')
  }

  /** The header: the range to restore, and whether its sketches are sparse. */
  function ParseHeader(cfg: Config, data: seq<Byte>): Parsed<(nat, nat, bool)>
  {
    match ParseInt(WORD, data)
    case Malformed => Malformed
    case Done(tag, rest) =>
      if tag != Tag(PARTIAL) && tag != Tag(SPARSE) then Done((0, cfg.sketches, false), rest)
      else
        match ParseRange(rest)
        case Malformed => Malformed
        case Done(range, rest') => Done((range.0, Add32(range.0, range.1), tag == Tag(SPARSE)), rest')
  }

  function ParseNode(cfg: Config, w: nat, data: seq<Byte>): Parsed<Loaded>
  {
    match ParseHeader(cfg, data)
    case Malformed => Malformed
    case Done(h, rest) => FillSlots(cfg, w, h.2, h.0, h.1, rest)
  }

  /** The constructor from a stream: three loops over the slots with one running seed. */
  method ReadNode(cfg: Config, w: nat, data: seq<Byte>) returns (r: Parsed<Loaded>)
    ensures r == ParseNode(cfg, w, data)
  {
    var h := ParseHeader(cfg, data);
    if h.Malformed? { return Malformed; }
    var (beg, end, sparse) := h.value;
    var slots: map<nat, Sketch>, seed := WriteBlanks(cfg, map[], 0, beg, cfg.base, 0);
    var read;
    read, seed := ReadSlots(cfg, w, sparse, slots, beg, end, seed, h.rest);
    if read.Malformed? { return Malformed; }
    slots, seed := WriteBlanks(cfg, read.value, end, cfg.sketches, seed, Max(beg, end));
    return Done(Loaded(beg, end, slots), read.rest);
  }

  method WriteBlanks(cfg: Config, given: map<nat, Sketch>, lo: nat, hi: nat, start: nat, ghost k: nat)
    returns (slots: map<nat, Sketch>, seed: nat)
    requires start == SeedOf(cfg, k)
    ensures slots == PlaceBlank(cfg, given, lo, hi, k) && seed == SeedOf(cfg, k + if lo < hi then hi - lo else 0)
  {
    slots, seed := given, start;
    var i := lo;
    while i < hi
      invariant lo <= i && (lo < hi ==> i <= hi) && (hi <= lo ==> i == lo) && seed == SeedOf(cfg, k + i - lo)
      invariant PlaceBlank(cfg, slots, i, hi, k + i - lo) == PlaceBlank(cfg, given, lo, hi, k)
    {
      slots := slots[i := Sketch(seed, Zeros(NumElems(cfg)), false)];
      i, seed := i + 1, seed + cfg.columns;
    }
  }

  method ReadSlots(cfg: Config, w: nat, sparse: bool, given: map<nat, Sketch>, lo: nat, hi: nat, start: nat, data: seq<Byte>)
    returns (r: Parsed<map<nat, Sketch>>, seed: nat)
    requires start == SeedOf(cfg, lo)
    ensures r == PlaceRead(cfg, w, sparse, given, lo, hi, lo, data)
    ensures r.Done? ==> seed == SeedOf(cfg, Max(lo, hi))
  {
    var slots: map<nat, Sketch>, i, left := given, lo, data;
    seed := start;
    while i < hi
      invariant lo <= i <= Max(lo, hi) && seed == SeedOf(cfg, i)
      invariant PlaceRead(cfg, w, sparse, slots, i, hi, i, left) == PlaceRead(cfg, w, sparse, given, lo, hi, lo, data)
    {
      var bs := if sparse then ParseSparse(w, NumElems(cfg), left) else ParseDense(w, NumElems(cfg), left);
      if bs.Malformed? { return Malformed, seed; }
      slots, left := slots[i := Sketch(seed, bs.value, false)], bs.rest;
      i, seed := i + 1, seed + cfg.columns;
    }
    r := Done(slots, left);
  }

  // ---------- round trips ----------

  /** A supernode that can be written: every value fits its field. */
  ghost predicate Storable(cfg: Config, w: nat, s: Supernode)
  {
    && Shaped(cfg, s) && 0 < cfg.sketches < WRAP && NumElems(cfg) <= Space(POS)
    && forall i | 0 <= i < |s.sketches| :: AllFit(w, s.sketches[i].buckets)
  }

  /** The sizes fit the fields of the format, and a checksum has w bytes. */
  ghost predicate Writable(cfg: Config, w: nat)
  {
    0 < cfg.sketches < WRAP && NumElems(cfg) <= Space(POS) && forall x: nat, seed: nat :: cfg.checksum(x, seed) < Space(w)
  }

  /** A supernode that has taken in indices that fit, in whatever number, can be written. */
  lemma HeldStorable(cfg: Config, w: nat, s: Supernode, what: set<nat>)
    requires HoldsAll(cfg, s, what) && Writable(cfg, w) && forall x | x in what :: x < Space(INDEX)
    ensures Storable(cfg, w, s)
  {
    forall i | 0 <= i < |s.sketches|
      ensures AllFit(w, s.sketches[i].buckets)
    {
      var seed := SeedOf(cfg, i);
      forall b | 0 <= b < NumElems(cfg)
        ensures Fits(w, BucketsOf(cfg, seed, what)[b])
      {
        FoldFits(cfg, w, seed, At(cfg, seed, what, b));
      }
    }
  }

  /** Slot i of l: the sketch of s if it lies in [b, b + m), else a blank one under the same seed. */
  ghost predicate SlotRestored(cfg: Config, s: Supernode, b: nat, m: nat, l: Loaded, i: nat)
    requires Shaped(cfg, s)
  {
    && (i in l.slots <==> i < cfg.sketches)
    && (i < cfg.sketches ==>
          l.slots[i] == if b <= i < b + m then s.sketches[i].(queried := false) else Blank(cfg, i))
  }

  /** The sketches of s in [b, b + m) have been read, and nothing more. */
  ghost predicate ReadBack(cfg: Config, s: Supernode, b: nat, m: nat, rest: seq<Byte>, r: Parsed<Loaded>)
    requires Shaped(cfg, s)
  {
    && r.Done? && r.rest == rest && r.value.sampleIdx == b && r.value.numSketches == b + m
    && forall i: nat :: SlotRestored(cfg, s, b, m, r.value, i)
  }

  /** Slot i after blanks were written into slots lo up to hi. */
  lemma {:induction false} BlankAt(cfg: Config, slots: map<nat, Sketch>, lo: nat, hi: nat, k: nat, i: nat)
    ensures var r := PlaceBlank(cfg, slots, lo, hi, k);
      && (i in r <==> i in slots || lo <= i < hi)
      && (i in r ==> r[i] == if lo <= i < hi then Blank(cfg, k + i - lo) else slots[i])
    decreases hi - lo
  {
    if lo < hi { BlankAt(cfg, slots[lo := Blank(cfg, k)], lo + 1, hi, k + 1, i); }
  }

  lemma SketchRoundTrip(cfg: Config, w: nat, s: Supernode, i: nat, sparse: bool, rest: seq<Byte>)
    requires Storable(cfg, w, s) && i < cfg.sketches
    ensures s.sketches[i].buckets != []
    ensures ParseSketch(cfg, w, sparse, i, SketchData(w, s.sketches[i], sparse) + rest)
      == Done(s.sketches[i].(queried := false), rest)
  {
    if sparse {
      SparseRoundTrip(w, s.sketches[i].buckets, rest);
    } else {
      DenseRoundTrip(w, s.sketches[i].buckets, rest);
    }
  }

  /** Slot i after the sketches of s from lo up to hi were read over `slots`. */
  ghost predicate ReadOver(cfg: Config, s: Supernode, slots: map<nat, Sketch>, slots': map<nat, Sketch>, lo: nat, hi: nat, i: nat)
    requires Shaped(cfg, s) && hi <= cfg.sketches
  {
    && (i in slots' <==> i in slots || lo <= i < hi)
    && (i in slots' ==> slots'[i] == if lo <= i < hi then s.sketches[i].(queried := false) else slots[i])
  }

  lemma {:induction false} ReadAt(cfg: Config, w: nat, s: Supernode, sparse: bool, slots: map<nat, Sketch>,
                                  lo: nat, hi: nat, rest: seq<Byte>, i: nat)
    requires Storable(cfg, w, s) && hi <= cfg.sketches && HaveBuckets(s.sketches)
    ensures var r := PlaceRead(cfg, w, sparse, slots, lo, hi, lo, RangeData(w, s.sketches, lo, hi, sparse) + rest);
      r.Done? && r.rest == rest && ReadOver(cfg, s, slots, r.value, lo, hi, i)
    decreases hi - lo
  {
    if lo >= hi {
      assert RangeData(w, s.sketches, lo, hi, sparse) + rest == rest;
    } else {
      var first, tail := SketchData(w, s.sketches[lo], sparse), RangeData(w, s.sketches, lo + 1, hi, sparse);
      Regroup(first, tail, rest);
      var sketch := s.sketches[lo].(queried := false);
      SketchRoundTrip(cfg, w, s, lo, sparse, tail + rest);
      ReadOne(cfg, w, sparse, slots, lo, hi, first, tail + rest, sketch);
      ReadAt(cfg, w, s, sparse, slots[lo := sketch], lo + 1, hi, rest, i);
    }
  }

  lemma ReadOne(cfg: Config, w: nat, sparse: bool, slots: map<nat, Sketch>, lo: nat, hi: nat,
                first: seq<Byte>, more: seq<Byte>, sketch: Sketch)
    requires lo < hi && ParseSketch(cfg, w, sparse, lo, first + more) == Done(sketch, more)
    ensures PlaceRead(cfg, w, sparse, slots, lo, hi, lo, first + more)
      == PlaceRead(cfg, w, sparse, slots[lo := sketch], lo + 1, hi, lo + 1, more)
  {}

  /** Slot i once the range has been read. */
  ghost predicate SlotRead(cfg: Config, s: Supernode, b: nat, m: nat, slots: map<nat, Sketch>, i: nat)
    requires Shaped(cfg, s) && b + m <= cfg.sketches
  {
    && (i in slots <==> i < b + m)
    && (i < b + m ==> slots[i] == if b <= i then s.sketches[i].(queried := false) else Blank(cfg, i))
  }

  lemma RangeRead(cfg: Config, w: nat, s: Supernode, sparse: bool, b: nat, m: nat, rest: seq<Byte>, i: nat)
    requires Storable(cfg, w, s) && b + m <= cfg.sketches && HaveBuckets(s.sketches)
    ensures var r := PlaceRead(cfg, w, sparse, PlaceBlank(cfg, map[], 0, b, 0), b, b + m, b,
                               RangeData(w, s.sketches, b, b + m, sparse) + rest);
      r.Done? && r.rest == rest && SlotRead(cfg, s, b, m, r.value, i)
  {
    var blanks := PlaceBlank(cfg, map[], 0, b, 0);
    ReadAt(cfg, w, s, sparse, blanks, b, b + m, rest, i);
    var data := RangeData(w, s.sketches, b, b + m, sparse) + rest;
    ReadOverBlanks(cfg, s, b, m, PlaceRead(cfg, w, sparse, blanks, b, b + m, b, data).value, i);
  }

  lemma ReadOverBlanks(cfg: Config, s: Supernode, b: nat, m: nat, slots: map<nat, Sketch>, i: nat)
    requires Shaped(cfg, s) && b + m <= cfg.sketches && ReadOver(cfg, s, PlaceBlank(cfg, map[], 0, b, 0), slots, b, b + m, i)
    ensures SlotRead(cfg, s, b, m, slots, i)
  {
    BlankAt(cfg, map[], 0, b, 0, i);
  }

  lemma RestFilled(cfg: Config, s: Supernode, b: nat, m: nat, slots: map<nat, Sketch>, i: nat)
    requires Shaped(cfg, s) && b + m <= cfg.sketches && SlotRead(cfg, s, b, m, slots, i)
    ensures SlotRestored(cfg, s, b, m, Loaded(b, b + m, PlaceBlank(cfg, slots, b + m, cfg.sketches, b + m)), i)
  {
    BlankAt(cfg, slots, b + m, cfg.sketches, b + m, i);
  }

  lemma FillRoundTrip(cfg: Config, w: nat, s: Supernode, sparse: bool, b: nat, m: nat, rest: seq<Byte>)
    requires Storable(cfg, w, s) && b + m <= cfg.sketches && HaveBuckets(s.sketches)
    ensures ReadBack(cfg, s, b, m, rest,
                     FillSlots(cfg, w, sparse, b, b + m, RangeData(w, s.sketches, b, b + m, sparse) + rest))
  {
    RangeRead(cfg, w, s, sparse, b, m, rest, 0);
    var data := RangeData(w, s.sketches, b, b + m, sparse) + rest;
    var read := PlaceRead(cfg, w, sparse, PlaceBlank(cfg, map[], 0, b, 0), b, b + m, b, data).value;
    var l := Loaded(b, b + m, PlaceBlank(cfg, read, b + m, cfg.sketches, b + m));
    forall i: nat
      ensures SlotRestored(cfg, s, b, m, l, i)
    {
      RangeRead(cfg, w, s, sparse, b, m, rest, i);
      RestFilled(cfg, s, b, m, read, i);
    }
  }

  /** Reading back a whole supernode restores every sketch and takes just what was written. */
  lemma FullRoundTrip(cfg: Config, w: nat, s: Supernode, rest: seq<Byte>)
    requires Storable(cfg, w, s)
    ensures HaveBuckets(s.sketches)
    ensures ReadBack(cfg, s, 0, cfg.sketches, rest, ParseNode(cfg, w, FullData(w, s, false) + rest))
  {
    var body := RangeData(w, s.sketches, 0, |s.sketches|, false);
    Regroup(Bytes(Tag(FULL), WORD), body, rest);
    IntRoundTrip(Tag(FULL), WORD, body + rest);
    FillRoundTrip(cfg, w, s, false, 0, cfg.sketches, rest);
  }

  /** A sketch of the right size under the seed of slot i. */
  ghost predicate WellMade(cfg: Config, k: Sketch, i: nat)
  {
    k.seed == SeedOf(cfg, i) && |k.buckets| == NumElems(cfg) && !k.queried
  }

  lemma SketchTakesItsBytes(cfg: Config, w: nat, k: Sketch, i: nat, more: seq<Byte>)
    requires |k.buckets| == NumElems(cfg)
    ensures var r := ParseSketch(cfg, w, false, i, SketchData(w, k, false) + more);
      r.Done? && r.rest == more && WellMade(cfg, r.value, i)
  {
    DenseTakesItsBytes(w, k.buckets, more);
  }

  /** Slots lo up to hi are filled with sketches of the right size, and the others are as before. */
  ghost predicate FilledFrom(cfg: Config, slots: map<nat, Sketch>, slots': map<nat, Sketch>, lo: nat, hi: nat)
  {
    && (forall i: nat | lo <= i < hi :: i in slots' && WellMade(cfg, slots'[i], i))
    && (forall i: nat | i < lo && i in slots :: i in slots' && slots'[i] == slots[i])
  }

  lemma FilledOneMore(cfg: Config, slots: map<nat, Sketch>, k: Sketch, slots': map<nat, Sketch>, lo: nat, hi: nat)
    requires lo < hi && WellMade(cfg, k, lo) && FilledFrom(cfg, slots[lo := k], slots', lo + 1, hi)
    ensures FilledFrom(cfg, slots, slots', lo, hi)
  {
    assert lo in slots[lo := k];
  }

  /** Whatever was written, the slots get sketches of the right size. */
  lemma {:induction false} SomethingRead(cfg: Config, w: nat, ks: seq<Sketch>, slots: map<nat, Sketch>,
                                         lo: nat, hi: nat, rest: seq<Byte>)
    requires HaveBuckets(ks) && hi <= |ks| && forall i | 0 <= i < |ks| :: |ks[i].buckets| == NumElems(cfg)
    ensures var r := PlaceRead(cfg, w, false, slots, lo, hi, lo, RangeData(w, ks, lo, hi, false) + rest);
      r.Done? && r.rest == rest && FilledFrom(cfg, slots, r.value, lo, hi)
    decreases hi - lo
  {
    if lo >= hi {
      assert RangeData(w, ks, lo, hi, false) + rest == rest;
    } else {
      var first, tail := SketchData(w, ks[lo], false), RangeData(w, ks, lo + 1, hi, false);
      Regroup(first, tail, rest);
      SketchTakesItsBytes(cfg, w, ks[lo], lo, tail + rest);
      var k := ParseSketch(cfg, w, false, lo, first + (tail + rest)).value;
      ReadOne(cfg, w, false, slots, lo, hi, first, tail + rest, k);
      SomethingRead(cfg, w, ks, slots[lo := k], lo + 1, hi, rest);
      FilledOneMore(cfg, slots, k, PlaceRead(cfg, w, false, slots[lo := k], lo + 1, hi, lo + 1, tail + rest).value, lo, hi);
    }
  }

  /** A whole supernode takes four bytes for the tag, and 8 + w for each bucket of each sketch. */
  lemma FullSize(cfg: Config, w: nat, s: Supernode, size: nat)
    requires Shaped(cfg, s) && HaveBuckets(s.sketches) && size == NumElems(cfg) * (8 + w)
    ensures |FullData(w, s, false)| == 4 + cfg.sketches * size
  {
    RangeSize(w, s.sketches, 0, size);
  }

  lemma {:induction false} RangeSize(w: nat, ks: seq<Sketch>, lo: nat, size: nat)
    requires HaveBuckets(ks) && lo <= |ks| && forall i | 0 <= i < |ks| :: |SketchData(w, ks[i], false)| == size
    ensures |RangeData(w, ks, lo, |ks|, false)| == (|ks| - lo) * size
    decreases |ks| - lo
  {
    if lo < |ks| {
      RangeSize(w, ks, lo + 1, size);
      OneRow(|ks| - lo - 1, size);
    }
  }

  /** What was read has the shape of a whole supernode. */
  ghost predicate Sized(cfg: Config, l: Loaded)
  {
    l.numSketches == cfg.sketches && FilledFrom(cfg, map[], l.slots, 0, cfg.sketches)
  }

  /** So a supernode of any content reads back as a supernode of the same shape. */
  lemma FullKeepsShape(cfg: Config, w: nat, s: Supernode, rest: seq<Byte>)
    requires Shaped(cfg, s) && HaveBuckets(s.sketches)
    ensures var r := ParseNode(cfg, w, FullData(w, s, false) + rest);
      r.Done? && r.rest == rest && Sized(cfg, r.value)
  {
    var body := RangeData(w, s.sketches, 0, |s.sketches|, false);
    Regroup(Bytes(Tag(FULL), WORD), body, rest);
    IntRoundTrip(Tag(FULL), WORD, body + rest);
    SomethingRead(cfg, w, s.sketches, map[], 0, cfg.sketches, rest);
  }

  /** The part of the supernode that write_binary_range is asked for. */
  function Wanted(count: nat, beg: nat, num: nat): (nat, nat)
    requires count > 0
  {
    var b := Min(beg, count - 1);
    (b, Max(1, Min(num, count - b)))
  }

  lemma RangeParses(b: nat, m: nat, body: seq<Byte>)
    requires b < WRAP && m < WRAP
    ensures ParseRange(Bytes(b, WORD) + (Bytes(m, WORD) + body)) == Done((b, m), body)
  {
    IntRoundTrip(b, WORD, Bytes(m, WORD) + body);
    IntRoundTrip(m, WORD, body);
  }

  lemma HeaderParses(cfg: Config, w: nat, data: seq<Byte>, tail: seq<Byte>, body: seq<Byte>, b: nat, m: nat, sparse: bool)
    requires ParseInt(WORD, data) == Done(RangeTag(sparse), tail) && ParseRange(tail) == Done((b, m), body)
    ensures ParseNode(cfg, w, data) == FillSlots(cfg, w, sparse, b, Add32(b, m), body)
  {}

  lemma Regroup4(t: seq<Byte>, b: seq<Byte>, m: seq<Byte>, body: seq<Byte>, rest: seq<Byte>)
    ensures (t + (b + (m + body))) + rest == t + (b + (m + (body + rest)))
  {}

  lemma PartialParses(cfg: Config, w: nat, s: Supernode, beg: nat, num: nat, sparse: bool, rest: seq<Byte>, c: Clamped)
    requires Storable(cfg, w, s) && HaveBuckets(s.sketches) && num < WRAP && c == Clamp(cfg.sketches, beg, num)
    ensures ParseNode(cfg, w, PartialData(w, s, beg, num, sparse) + rest) ==
      FillSlots(cfg, w, sparse, c.beg, c.end, RangeData(w, s.sketches, c.beg, c.end, sparse) + rest)
  {
    var tag, body := Bytes(RangeTag(sparse), WORD), RangeData(w, s.sketches, c.beg, c.end, sparse);
    var tail := Bytes(c.beg, WORD) + (Bytes(c.num, WORD) + (body + rest));
    Regroup4(tag, Bytes(c.beg, WORD), Bytes(c.num, WORD), body, rest);
    IntRoundTrip(RangeTag(sparse), WORD, tail);
    RangeParses(c.beg, c.num, body + rest);
    HeaderParses(cfg, w, tag + tail, tail, body + rest, c.beg, c.num, sparse);
  }

  lemma ClampMeans(count: nat, beg: nat, num: nat)
    requires 0 < count < WRAP && num < WRAP
    ensures var (b, m) := Wanted(count, beg, num);
      && b + m <= count
      && if b + num < WRAP then Clamp(count, beg, num) == Clamped(b, m, b + m) else Clamp(count, beg, num).end < b
  {}

  lemma FillEnds(cfg: Config, w: nat, sparse: bool, beg: nat, end: nat, data: seq<Byte>)
    ensures var r := FillSlots(cfg, w, sparse, beg, end, data);
      r.Done? ==> r.value.numSketches == end
  {}

  /** The part asked for has been read, and nothing more. */
  ghost predicate WantedPart(cfg: Config, s: Supernode, beg: nat, num: nat, rest: seq<Byte>, r: Parsed<Loaded>)
    requires Shaped(cfg, s) && cfg.sketches > 0
  {
    var (b, m) := Wanted(cfg.sketches, beg, num);
    ReadBack(cfg, s, b, m, rest, r)
  }

  /** Writing a range restores just the part asked for, unless the sum of its bounds passes 32 bits. */
  lemma PartialRoundTrip(cfg: Config, w: nat, s: Supernode, beg: nat, num: nat, sparse: bool, rest: seq<Byte>)
    requires Storable(cfg, w, s) && num < WRAP
    ensures HaveBuckets(s.sketches)
    ensures WantedPart(cfg, s, beg, num, rest, ParseNode(cfg, w, PartialData(w, s, beg, num, sparse) + rest))
      <==> Wanted(cfg.sketches, beg, num).0 + num < WRAP
  {
    ClampMeans(cfg.sketches, beg, num);
    var c := Clamp(cfg.sketches, beg, num);
    PartialParses(cfg, w, s, beg, num, sparse, rest, c);
    if Wanted(cfg.sketches, beg, num).0 + num < WRAP {
      RangeRestored(cfg, w, s, beg, num, sparse, rest, c);
    } else {
      RangeWraps(cfg, w, s, beg, num, sparse, rest, c);
    }
  }

  lemma RangeRestored(cfg: Config, w: nat, s: Supernode, beg: nat, num: nat, sparse: bool, rest: seq<Byte>, c: Clamped)
    requires Storable(cfg, w, s) && HaveBuckets(s.sketches)
    requires Wanted(cfg.sketches, beg, num) == (c.beg, c.num) && c.end == c.beg + c.num <= cfg.sketches
    ensures WantedPart(cfg, s, beg, num, rest,
                       FillSlots(cfg, w, sparse, c.beg, c.end, RangeData(w, s.sketches, c.beg, c.end, sparse) + rest))
  {
    FillRoundTrip(cfg, w, s, sparse, c.beg, c.num, rest);
    ReadBackWanted(cfg, s, beg, num, rest, c,
                   FillSlots(cfg, w, sparse, c.beg, c.end, RangeData(w, s.sketches, c.beg, c.end, sparse) + rest));
  }

  lemma ReadBackWanted(cfg: Config, s: Supernode, beg: nat, num: nat, rest: seq<Byte>, c: Clamped, r: Parsed<Loaded>)
    requires Shaped(cfg, s) && cfg.sketches > 0 && Wanted(cfg.sketches, beg, num) == (c.beg, c.num)
    requires ReadBack(cfg, s, c.beg, c.num, rest, r)
    ensures WantedPart(cfg, s, beg, num, rest, r)
  {
  }

  lemma RangeWraps(cfg: Config, w: nat, s: Supernode, beg: nat, num: nat, sparse: bool, rest: seq<Byte>, c: Clamped)
    requires Storable(cfg, w, s) && HaveBuckets(s.sketches) && c.end <= cfg.sketches
    requires c.end < Wanted(cfg.sketches, beg, num).0
    ensures !WantedPart(cfg, s, beg, num, rest,
                        FillSlots(cfg, w, sparse, c.beg, c.end, RangeData(w, s.sketches, c.beg, c.end, sparse) + rest))
  {
    FillEnds(cfg, w, sparse, c.beg, c.end, RangeData(w, s.sketches, c.beg, c.end, sparse) + rest);
  }

  // ---------- sparse sketches under the tag FULL ----------

  lemma {:induction false} IntsTake(count: nat, w: nat, data: seq<Byte>)
    ensures var r := ParseInts(count, w, data);
      r.Done? ==> |data| == count * w + |r.rest|
  {
    if count > 0 && |data| >= w { IntsTake(count - 1, w, data[w..]); }
  }

  lemma {:induction false} ReadTakes(cfg: Config, w: nat, slots: map<nat, Sketch>, lo: nat, hi: nat, k: nat, data: seq<Byte>)
    requires lo <= hi
    ensures var r := PlaceRead(cfg, w, false, slots, lo, hi, k, data);
      r.Done? ==> |data| == (hi - lo) * (NumElems(cfg) * (INDEX + w)) + |r.rest|
    decreases hi - lo
  {
    var n := NumElems(cfg);
    if lo < hi && ParseSketch(cfg, w, false, k, data).Done? {
      IntsTake(n, INDEX, data);
      IntsTake(n, w, ParseInts(n, INDEX, data).rest);
      var next := ParseSketch(cfg, w, false, k, data);
      ReadTakes(cfg, w, slots[lo := next.value], lo + 1, hi, k + 1, next.rest);
      Count(hi - lo, n * (INDEX + w));
    }
  }

  lemma Count(a: nat, b: nat)
    requires a > 0
    ensures a * b == b + (a - 1) * b
  {}

  lemma {:induction false} BlankEntry(w: nat, n: nat, i: nat)
    requires i < n
    ensures |SparseFrom(w, Zeros(n), i)| == POS + INDEX + w
    decreases n - i
  {
    if i < n - 1 { BlankEntry(w, n, i + 1); }
  }

  lemma {:induction false} BlankRange(cfg: Config, w: nat, lo: nat)
    requires lo <= cfg.sketches && HaveBuckets(Fresh(cfg).sketches)
    ensures |RangeData(w, Fresh(cfg).sketches, lo, cfg.sketches, true)| == (cfg.sketches - lo) * (POS + INDEX + w)
    decreases cfg.sketches - lo
  {
    if lo < cfg.sketches {
      BlankEntry(w, NumElems(cfg), 0);
      assert Fresh(cfg).sketches[lo].buckets == Zeros(NumElems(cfg));
      BlankRange(cfg, w, lo + 1);
      Count(cfg.sketches - lo, POS + INDEX + w);
    }
  }

  /** An empty supernode, written sparse, is shorter or longer than what is read back. */
  lemma BlankMisread(cfg: Config, w: nat)
    requires 0 < cfg.sketches < WRAP && NumElems(cfg) <= Space(POS)
    ensures Storable(cfg, w, Fresh(cfg)) && HaveBuckets(Fresh(cfg).sketches)
    ensures !FullReadsBack(cfg, w, Fresh(cfg), true, [])
  {
    var s, n := Fresh(cfg), NumElems(cfg);
    SpacePositive(INDEX);
    SpacePositive(w);
    var body := RangeData(w, s.sketches, 0, cfg.sketches, true);
    assert FullData(w, s, true) + [] == Bytes(Tag(FULL), WORD) + body;
    IntRoundTrip(Tag(FULL), WORD, body);
    BlankRange(cfg, w, 0);
    ReadTakes(cfg, w, map[], 0, cfg.sketches, 0, body);
    Differ(cfg.sketches, n, w);
  }

  lemma SpacePositive(w: nat)
    ensures Space(w) > 0
  {}

  lemma Differ(sketches: nat, n: nat, w: nat)
    requires sketches > 0 && n > 0
    ensures sketches * (POS + INDEX + w) != sketches * (n * (INDEX + w))
  {
    var size := n * (INDEX + w);
    if n == 1 {
      assert size == INDEX + w;
    } else {
      Count(n, INDEX + w);
      Count(n - 1, INDEX + w);
    }
    assert size != POS + INDEX + w;
    Scaled(sketches, size, POS + INDEX + w);
  }

  lemma Scaled(a: nat, b: nat, c: nat)
    requires a > 0 && b != c
    ensures a * b != a * c
  {
    assert a * (b - c) == a * b - a * c;
  }

  /** Reading back what write_binary wrote works for every supernode exactly if it was not asked
      to write sparse sketches: those are not told apart from full ones. */
  lemma FullRoundTripIff(cfg: Config, w: nat, sparse: bool)
    requires 0 < cfg.sketches < WRAP && NumElems(cfg) <= Space(POS)
    ensures (forall s: Supernode, rest: seq<Byte> | Storable(cfg, w, s) && HaveBuckets(s.sketches) ::
               FullReadsBack(cfg, w, s, sparse, rest)) <==> !sparse
  {
    if sparse {
      BlankMisread(cfg, w);
    } else {
      forall s: Supernode, rest: seq<Byte> | Storable(cfg, w, s) && HaveBuckets(s.sketches)
        ensures FullReadsBack(cfg, w, s, sparse, rest)
      {
        FullRoundTrip(cfg, w, s, rest);
      }
    }
  }

  ghost predicate FullReadsBack(cfg: Config, w: nat, s: Supernode, sparse: bool, rest: seq<Byte>)
    requires Shaped(cfg, s) && HaveBuckets(s.sketches)
  {
    ReadBack(cfg, s, 0, cfg.sketches, rest, ParseNode(cfg, w, FullData(w, s, sparse) + rest))
  }
}
