// The bytes that the circuit's public input is the hash of.
module PublicInput {
  import opened Types
  import opened Bytes
  import opened Accounts
  import opened Codec
  import opened UserTxBytes

  const MAX_LEVEL_BYTES: nat := 6

  // The least number of big-endian digits of x; none for 0.
  function MinBytes(x: nat): (b: seq<byte>) {
    if x == 0 then [] else MinBytes(x / 256) + [x % 256]
  }

  lemma {:induction false} MinBytesFit(x: nat, n: nat)
    requires x < Pow256(n)
    ensures |MinBytes(x)| <= n && Zeros(n - |MinBytes(x)|) + MinBytes(x) == ToBE(x, n)
  {
    if x == 0 {
      ToBEPadded(0, n, 0);
    } else {
      MinBytesFit(x / 256, n - 1);
      var front := MinBytes(x / 256);
      assert Zeros(n - 1 - |front|) + front + [x % 256] == Zeros(n - |MinBytes(x)|) + MinBytes(x);
    }
  }

  // make, then copy the number's bytes to the end
  method RightAligned(x: nat, n: nat) returns (r: seq<byte>)
    requires x < Pow256(n)
    ensures r == ToBE(x, n)
  {
    MinBytesFit(x, n);
    var b := new byte[n](_ => 0);
    assert b[..] == Zeros(n - |MinBytes(x)|) + Zeros(|MinBytes(x)|) + [];
    SpliceBetween(Zeros(n - |MinBytes(x)|), Zeros(|MinBytes(x)|), [], MinBytes(x));
    Copy(b, n - |MinBytes(x)|, MinBytes(x));
    assert Zeros(n - |MinBytes(x)|) + MinBytes(x) + [] == ToBE(x, n);
    r := b[..];
  }

  // ---- sections of equal slots ----

  // The slots filled so far, one after the other.
  function Concat(slots: seq<seq<byte>>): (b: seq<byte>) {
    if slots == [] then [] else Concat(slots[..|slots| - 1]) + slots[|slots| - 1]
  }

  ghost predicate AllOfLength(slots: seq<seq<byte>>, len: nat) {
    forall i :: 0 <= i < |slots| ==> |slots[i]| == len
  }

  lemma {:induction false} ConcatLength(slots: seq<seq<byte>>, len: nat)
    requires AllOfLength(slots, len)
    ensures |Concat(slots)| == |slots| * len
  {
    if slots != [] {
      ConcatLength(slots[..|slots| - 1], len);
      assert |slots| * len == (|slots| - 1) * len + len;
    }
  }

  lemma {:induction false} ConcatAppend(a: seq<seq<byte>>, b: seq<seq<byte>>)
    ensures Concat(a + b) == Concat(a) + Concat(b)
  {
    if b == [] {
      assert a + b == a;
      assert Concat(a) + [] == Concat(a);
    } else {
      var front := b[..|b| - 1];
      ConcatAppend(a, front);
      assert (a + b)[..|a + b| - 1] == a + front;
      assert Concat(a) + (Concat(front) + b[|b| - 1]) == (Concat(a) + Concat(front)) + b[|b| - 1];
    }
  }

  // n slots of the given length: the ones given, then zeros.
  function Section(slots: seq<seq<byte>>, n: nat, len: nat): (b: seq<byte>)
    requires |slots| <= n
  {
    Concat(slots) + Zeros((n - |slots|) * len)
  }

  lemma SectionLength(slots: seq<seq<byte>>, n: nat, len: nat)
    requires |slots| <= n && AllOfLength(slots, len)
    ensures |Section(slots, n, len)| == n * len
  {
    hide AllOfLength, Concat, Zeros;
    ConcatLength(slots, len);
    AllSlots(|slots|, n, len);
  }

  lemma SlotGiven(slots: seq<seq<byte>>, n: nat, len: nat, i: nat)
    requires |slots| <= n && AllOfLength(slots, len) && i < |slots|
    ensures i * len + len <= |Section(slots, n, len)|
    ensures Section(slots, n, len)[i * len..i * len + len] == slots[i]
  {
    hide AllOfLength, Concat, Zeros;
    SlotOf(slots, i, len);
    SliceFront(Concat(slots), Zeros((n - |slots|) * len), i * len, i * len + len);
  }

  lemma SlotBlank(slots: seq<seq<byte>>, n: nat, len: nat, i: nat)
    requires AllOfLength(slots, len) && |slots| <= i < n
    ensures i * len + len <= |Section(slots, n, len)|
    ensures Section(slots, n, len)[i * len..i * len + len] == Zeros(len)
  {
    SectionLength(slots, n, len);
    ConcatLength(slots, len);
    SlotBounds(i, n, len);
    SlotsBefore(|slots|, i, len);
    AllSlots(|slots|, n, len);
    hide AllOfLength, Concat, Zeros;
    var rest := (n - |slots|) * len;
    SliceZeros(Concat(slots), rest, i * len, len);
  }

  // A section's length depends on the number and size of its slots only; slot i holds what was given
  // for it and is zero when nothing was.
  lemma SectionSlots(slots: seq<seq<byte>>, n: nat, len: nat, i: nat)
    requires |slots| <= n && AllOfLength(slots, len) && i < n
    ensures |Section(slots, n, len)| == n * len
    ensures 0 <= i * len <= i * len + len <= n * len
    ensures Section(slots, n, len)[i * len..i * len + len] == if i < |slots| then slots[i] else Zeros(len)
  {
    hide Section, AllOfLength, Zeros;
    SectionLength(slots, n, len);
    SlotBounds(i, n, len);
    if i < |slots| {
      SlotGiven(slots, n, len, i);
    } else {
      SlotBlank(slots, n, len, i);
    }
  }

  lemma AllSlots(k: nat, n: nat, len: nat)
    requires k <= n
    ensures k * len + (n - k) * len == n * len
  {
  }

  lemma SlotsBefore(k: nat, i: nat, len: nat)
    requires k <= i
    ensures k * len <= i * len
  {
  }

  lemma SliceFront(a: seq<byte>, b: seq<byte>, from: nat, to: nat)
    requires from <= to <= |a|
    ensures (a + b)[from..to] == a[from..to]
  {
  }

  lemma SliceZeros(a: seq<byte>, n: nat, from: nat, len: nat)
    requires |a| <= from && from + len <= |a| + n
    ensures (a + Zeros(n))[from..from + len] == Zeros(len)
  {
  }

  lemma SlotBounds(i: nat, n: nat, len: nat)
    requires i < n
    ensures i * len + len <= n * len
  {
    assert (i + 1) * len <= n * len;
    assert (i + 1) * len == i * len + len;
  }

  lemma {:induction false} SlotOf(slots: seq<seq<byte>>, i: nat, len: nat)
    requires AllOfLength(slots, len) && i < |slots|
    ensures |Concat(slots)| == |slots| * len && i * len + len <= |slots| * len
    ensures Concat(slots)[i * len..i * len + len] == slots[i]
  {
    var last := |slots| - 1;
    var front := slots[..last];
    ConcatLength(slots, len);
    ConcatLength(front, len);
    SlotBounds(i, |slots|, len);
    if i < last {
      SlotOf(front, i, len);
    }
  }

  // ---- the whole string ----

  const ROOT_BYTES: nat := 32

  // What goes into the hash. Roots are given as the library hands them out: the old one as a number,
  // the new ones as 32 bytes.
  datatype Public = Public(
    oldLastIdx: nat,
    newLastIdx: nat,
    oldRoot: nat,
    newRoot: seq<byte>,
    newExitRoot: seq<byte>,
    l1Data: seq<seq<byte>>,
    l1Availability: seq<seq<byte>>,
    l2Data: seq<seq<byte>>,
    feeIdxs: seq<Idx>,
    chainID: nat,
    batch: nat)

  // The buffers that are made for the fields are large enough for what is copied into them; more
  // transactions than the configuration allows are an error instead, if there are enough of them.
  ghost predicate Buffered(cfg: Config, p: Public) {
    && LevelsOK(cfg.nLevels)
    && p.oldLastIdx <= MAX_IDX
    && p.oldRoot < Pow256(ROOT_BYTES) && |p.newRoot| == ROOT_BYTES && |p.newExitRoot| == ROOT_BYTES
    && |p.l1Data| <= cfg.maxL1Tx
    && (|p.l2Data| > cfg.maxTx || |p.l1Availability| + |p.l2Data| <= cfg.maxTx)
    && AllOfLength(p.l1Data, L1_TOTAL_BYTES)
    && AllOfLength(p.l1Availability, RecordLen(cfg.nLevels / 8))
    && AllOfLength(p.l2Data, RecordLen(cfg.nLevels / 8))
    && |p.feeIdxs| == cfg.maxFeeTx
    && (forall i :: 0 <= i < |p.feeIdxs| ==> p.feeIdxs[i] < Pow256(cfg.nLevels / 8))
    && p.chainID < 0x1_0000 && p.batch < 0x1_0000_0000
  }

  ghost predicate Fits(cfg: Config, p: Public) {
    Buffered(cfg, p) && p.newLastIdx <= MAX_IDX && |p.l2Data| <= cfg.maxTx
  }

  // The old state root is copied to the front of its field, without its leading zeros.
  function LeftAligned(x: nat): seq<byte>
    requires |MinBytes(x)| <= ROOT_BYTES
  {
    MinBytes(x) + Zeros(ROOT_BYTES - |MinBytes(x)|)
  }

  function FeeSlots(feeIdxs: seq<Idx>, w: nat): (r: seq<seq<byte>>)
    ensures |r| == |feeIdxs| && forall i :: 0 <= i < |r| ==> |r[i]| == w
  {
    seq(|feeIdxs|, i requires 0 <= i < |feeIdxs| => ToBE(feeIdxs[i], w))
  }

  ghost function Header(p: Public): (b: seq<byte>)
    requires |MinBytes(p.oldRoot)| <= ROOT_BYTES && |p.newRoot| == ROOT_BYTES && |p.newExitRoot| == ROOT_BYTES
    ensures |b| == 108
  {
    ToBE(p.oldLastIdx, 6) + ToBE(p.newLastIdx, 6) + LeftAligned(p.oldRoot) + p.newRoot + p.newExitRoot
  }

  lemma RootFits(x: nat)
    requires x < Pow256(ROOT_BYTES)
    ensures |MinBytes(x)| <= ROOT_BYTES
  {
    MinBytesFit(x, ROOT_BYTES);
  }

  ghost function GlobalData(cfg: Config, p: Public): seq<byte>
    requires Fits(cfg, p)
  {
    RootFits(p.oldRoot);
    var w := cfg.nLevels / 8;
    Header(p)
    + Section(p.l1Data, cfg.maxL1Tx, L1_TOTAL_BYTES)
    + Section(Records(p), cfg.maxTx, RecordLen(w))
    + Concat(FeeSlots(p.feeIdxs, w))
    + ToBE(p.chainID, 2) + ToBE(p.batch, 4)
  }

  // Where the sections begin; only the configuration matters.
  function L1At(): nat { 108 }
  function RecordsAt(cfg: Config): nat { 108 + cfg.maxL1Tx * L1_TOTAL_BYTES }
  function FeesAt(cfg: Config): nat { RecordsAt(cfg) + cfg.maxTx * RecordLen(cfg.nLevels / 8) }
  function ChainAt(cfg: Config): nat { FeesAt(cfg) + cfg.maxFeeTx * (cfg.nLevels / 8) }

  // Six strings in a row, the first three boundaries given.
  lemma SixParts(h: seq<byte>, a: seq<byte>, b: seq<byte>, c: seq<byte>, d: seq<byte>, e: seq<byte>,
                 x: nat, y: nat, z: nat)
    requires x == |h| + |a| && y == x + |b| && z == y + |c|
    ensures var s := h + a + b + c + d + e;
      && |s| == z + |d| + |e|
      && s[..|h|] == h && s[|h|..x] == a && s[x..y] == b && s[y..z] == c && s[z..z + |d|] == d && s[z + |d|..] == e
  {
  }

  lemma PartLengths(cfg: Config, p: Public)
    requires Fits(cfg, p)
    ensures |MinBytes(p.oldRoot)| <= ROOT_BYTES && |Records(p)| <= cfg.maxTx
    ensures |Section(p.l1Data, cfg.maxL1Tx, L1_TOTAL_BYTES)| == RecordsAt(cfg) - L1At()
    ensures |Section(Records(p), cfg.maxTx, RecordLen(cfg.nLevels / 8))| == FeesAt(cfg) - RecordsAt(cfg)
    ensures |Concat(FeeSlots(p.feeIdxs, cfg.nLevels / 8))| == ChainAt(cfg) - FeesAt(cfg)
  {
    RootFits(p.oldRoot);
    SectionLength(p.l1Data, cfg.maxL1Tx, L1_TOTAL_BYTES);
    SectionLength(Records(p), cfg.maxTx, RecordLen(cfg.nLevels / 8));
    ConcatLength(FeeSlots(p.feeIdxs, cfg.nLevels / 8), cfg.nLevels / 8);
  }

  // The string has a length that depends on the configuration only, and so does the place of every
  // field: header, one slot for each L1 transaction, one record for each transaction, the fee
  // indices, chain and batch number.
  lemma FixedLayout(cfg: Config, p: Public)
    requires Fits(cfg, p)
    ensures var d := GlobalData(cfg, p);
      var w := cfg.nLevels / 8;
      && L1At() <= RecordsAt(cfg) <= FeesAt(cfg) <= ChainAt(cfg)
      && |d| == ChainAt(cfg) + 6
      && d[..L1At()] == Header(p)
      && d[L1At()..RecordsAt(cfg)] == Section(p.l1Data, cfg.maxL1Tx, L1_TOTAL_BYTES)
      && d[RecordsAt(cfg)..FeesAt(cfg)] == Section(Records(p), cfg.maxTx, RecordLen(w))
      && d[FeesAt(cfg)..ChainAt(cfg)] == Concat(FeeSlots(p.feeIdxs, w))
      && d[ChainAt(cfg)..ChainAt(cfg) + 2] == ToBE(p.chainID, 2)
      && d[ChainAt(cfg) + 2..] == ToBE(p.batch, 4)
  {
    var w := cfg.nLevels / 8;
    PartLengths(cfg, p);
    SixParts(Header(p), Section(p.l1Data, cfg.maxL1Tx, L1_TOTAL_BYTES), Section(Records(p), cfg.maxTx, RecordLen(w)),
             Concat(FeeSlots(p.feeIdxs, w)), ToBE(p.chainID, 2), ToBE(p.batch, 4),
             RecordsAt(cfg), FeesAt(cfg), ChainAt(cfg));
  }

  function Records(p: Public): seq<seq<byte>> {
    p.l1Availability + p.l2Data
  }

  lemma SubSlice(d: seq<byte>, at: nat, end: nat, from: nat, len: nat)
    requires at <= end <= |d| && from + len <= end - at
    ensures d[at..end][from..from + len] == d[at + from..at + from + len]
  {
    var a, b := d[at..end][from..from + len], d[at + from..at + from + len];
    forall k | 0 <= k < len
      ensures a[k] == b[k]
    {
      assert d[at..end][from + k] == d[at + (from + k)];
    }
    assert a == b;
  }

  lemma SlotInString(d: seq<byte>, at: nat, end: nat, slots: seq<seq<byte>>, n: nat, len: nat, i: nat)
    requires |slots| <= n && AllOfLength(slots, len) && i < n
    requires at <= end <= |d| && d[at..end] == Section(slots, n, len)
    ensures 0 <= i * len && at + i * len + len <= |d|
    ensures d[at + i * len..at + i * len + len] == if i < |slots| then slots[i] else Zeros(len)
  {
    SectionSlots(slots, n, len, i);
    SubSlice(d, at, end, i * len, len);
  }

  lemma RecordsAligned(cfg: Config, p: Public)
    requires Fits(cfg, p)
    ensures |Records(p)| <= cfg.maxTx && AllOfLength(Records(p), RecordLen(cfg.nLevels / 8))
    ensures RecordsAt(cfg) <= FeesAt(cfg) <= |GlobalData(cfg, p)|
    ensures GlobalData(cfg, p)[RecordsAt(cfg)..FeesAt(cfg)]
      == Section(Records(p), cfg.maxTx, RecordLen(cfg.nLevels / 8))
  {
    FixedLayout(cfg, p);
  }

  // Record i of the string is the i-th transaction's, L1 before L2, and zero when there is none.
  lemma RecordAt(cfg: Config, p: Public, i: nat)
    requires Fits(cfg, p) && i < cfg.maxTx
    ensures var d := GlobalData(cfg, p);
      var len := RecordLen(cfg.nLevels / 8);
      var at := RecordsAt(cfg) + i * len;
      && 0 <= at <= at + len <= |d|
      && d[at..at + len] == if i < |Records(p)| then Records(p)[i] else Zeros(len)
  {
    RecordsAligned(cfg, p);
    var d, slots, at, len := GlobalData(cfg, p), Records(p), RecordsAt(cfg), RecordLen(cfg.nLevels / 8);
    hide *;
    SlotInString(d, at, FeesAt(cfg), slots, cfg.maxTx, len, i);
  }

  // ---- every field by its place ----

  lemma FiveParts(a: seq<byte>, b: seq<byte>, c: seq<byte>, d: seq<byte>, e: seq<byte>)
    requires |a| == 6 && |b| == 6 && |c| == 32 && |d| == 32 && |e| == 32
    ensures var h := a + b + c + d + e;
      h[0..6] == a && h[6..12] == b && h[12..44] == c && h[44..76] == d && h[76..108] == e
  {
  }

  lemma InFront(d: seq<byte>, h: seq<byte>, from: nat, to: nat)
    requires from <= to <= |h| <= |d| && d[..|h|] == h
    ensures d[from..to] == h[from..to]
  {
    assert d[0..|h|] == h;
    SubSlice(d, 0, |h|, from, to - from);
  }

  // The old root's field holds its digits without the leading zeros, and then zeros.
  ghost predicate FrontOf(field: seq<byte>, x: nat) {
    exists k: nat :: DigitsInFront(field, x, k)
  }

  ghost predicate DigitsInFront(field: seq<byte>, x: nat, k: nat) {
    && k <= |field| && FromBE(field[..k]) == x && (k > 0 ==> field[0] != 0)
    && field[k..] == Zeros(|field| - k)
  }

  lemma LeftAlignedIs(x: nat)
    requires x < Pow256(ROOT_BYTES)
    ensures |MinBytes(x)| <= ROOT_BYTES && FrontOf(LeftAligned(x), x)
  {
    RootFits(x);
    MinBytesIs(x);
    var n := |MinBytes(x)|;
    var field := LeftAligned(x);
    hide MinBytes, Pow256, FromBE, ToBE;
    assert field[..n] == MinBytes(x) && field[n..] == Zeros(ROOT_BYTES - n);
    assert DigitsInFront(field, x, n);
  }

  lemma {:induction false} MinBytesIs(x: nat)
    ensures FromBE(MinBytes(x)) == x && (x > 0 ==> |MinBytes(x)| > 0 && MinBytes(x)[0] != 0)
    ensures x == 0 ==> MinBytes(x) == []
  {
    if x > 0 {
      MinBytesIs(x / 256);
      assert MinBytes(x)[..|MinBytes(x)| - 1] == MinBytes(x / 256);
    }
  }

  // The header: last index before and after, old root, new state root, new exit root.
  lemma HeaderFields(cfg: Config, p: Public)
    requires Fits(cfg, p)
    ensures var d := GlobalData(cfg, p);
      && |d| >= 108
      && d[0..6] == ToBE(p.oldLastIdx, 6) && d[6..12] == ToBE(p.newLastIdx, 6)
      && FrontOf(d[12..44], p.oldRoot) && d[44..76] == p.newRoot && d[76..108] == p.newExitRoot
  {
    FixedLayout(cfg, p);
    LeftAlignedIs(p.oldRoot);
    var d, h := GlobalData(cfg, p), Header(p);
    FiveParts(ToBE(p.oldLastIdx, 6), ToBE(p.newLastIdx, 6), LeftAligned(p.oldRoot), p.newRoot, p.newExitRoot);
    hide GlobalData, Fits, Header, ToBE, LeftAligned, FrontOf;
    InFront(d, h, 0, 6);
    InFront(d, h, 6, 12);
    InFront(d, h, 12, 44);
    InFront(d, h, 44, 76);
    InFront(d, h, 76, 108);
  }

  // Slot i of the L1 section holds the bytes given for L1 transaction i, and zeros when there is none.
  lemma L1DataAt(cfg: Config, p: Public, i: nat)
    requires Fits(cfg, p) && i < cfg.maxL1Tx
    ensures var d := GlobalData(cfg, p);
      var at := L1At() + i * L1_TOTAL_BYTES;
      && 0 <= at <= at + L1_TOTAL_BYTES <= |d|
      && d[at..at + L1_TOTAL_BYTES] == if i < |p.l1Data| then p.l1Data[i] else Zeros(L1_TOTAL_BYTES)
  {
    L1Aligned(cfg, p);
    var d, at, end := GlobalData(cfg, p), L1At(), RecordsAt(cfg);
    hide *;
    SlotInString(d, at, end, p.l1Data, cfg.maxL1Tx, L1_TOTAL_BYTES, i);
  }

  lemma L1Aligned(cfg: Config, p: Public)
    requires Fits(cfg, p)
    ensures |p.l1Data| <= cfg.maxL1Tx && AllOfLength(p.l1Data, L1_TOTAL_BYTES)
    ensures L1At() <= RecordsAt(cfg) <= |GlobalData(cfg, p)|
    ensures GlobalData(cfg, p)[L1At()..RecordsAt(cfg)] == Section(p.l1Data, cfg.maxL1Tx, L1_TOTAL_BYTES)
  {
    FixedLayout(cfg, p);
    hide GlobalData, Section;
  }

  // Slot i of the fee section holds fee index i.
  lemma FeeIdxAt(cfg: Config, p: Public, i: nat)
    requires Fits(cfg, p) && i < cfg.maxFeeTx
    ensures var d := GlobalData(cfg, p);
      var w := cfg.nLevels / 8;
      var at := FeesAt(cfg) + i * w;
      0 <= at <= at + w <= |d| && d[at..at + w] == ToBE(p.feeIdxs[i], w)
  {
    FixedLayout(cfg, p);
    var d, w := GlobalData(cfg, p), cfg.nLevels / 8;
    assert |p.feeIdxs| == cfg.maxFeeTx;
    hide Fits, GlobalData, Section, Header, Concat, FeeSlots, FeesAt, ChainAt, RecordLen;
    FeeSlotIn(d, FeesAt(cfg), ChainAt(cfg), p.feeIdxs, w, i);
  }

  lemma FeeSlotIn(d: seq<byte>, at: nat, end: nat, feeIdxs: seq<Idx>, w: nat, i: nat)
    requires at <= end <= |d| && d[at..end] == Concat(FeeSlots(feeIdxs, w)) && i < |feeIdxs|
    ensures 0 <= i * w && at + i * w + w <= |d| && d[at + i * w..at + i * w + w] == ToBE(feeIdxs[i], w)
  {
    var slots := FeeSlots(feeIdxs, w);
    SlotOf(slots, i, w);
    hide Concat;
    SlotInside(slots, i, w);
    SubSlice(d, at, end, i * w, w);
  }

  lemma SlotInside(slots: seq<seq<byte>>, i: nat, w: nat)
    requires AllOfLength(slots, w) && i < |slots|
    ensures 0 <= i * w && i * w + w <= |Concat(slots)|
  {
    ConcatLength(slots, w);
    SlotBounds(i, |slots|, w);
  }

  // Chain and batch number are at the end.
  lemma TrailerFields(cfg: Config, p: Public)
    requires Fits(cfg, p)
    ensures var d := GlobalData(cfg, p);
      && |d| == ChainAt(cfg) + 6
      && d[ChainAt(cfg)..ChainAt(cfg) + 2] == ToBE(p.chainID, 2) && d[ChainAt(cfg) + 2..] == ToBE(p.batch, 4)
  {
    FixedLayout(cfg, p);
  }

  // The old root's field is the usual 32-byte form exactly when the root has no leading zero byte;
  // otherwise different roots can share a field.
  lemma OldRootField(x: nat)
    requires x < Pow256(ROOT_BYTES)
    ensures |MinBytes(x)| <= ROOT_BYTES
    ensures LeftAligned(x) == ToBE(x, ROOT_BYTES) <==> x == 0 || x >= Pow256(ROOT_BYTES - 1)
    ensures LeftAligned(1) == LeftAligned(256)
  {
    MinBytesFit(x, ROOT_BYTES);
    MinBytesLength(x, ROOT_BYTES);
    SharedField();
    if x == 0 {
      assert LeftAligned(0) == Zeros(32) + [];
    } else if |MinBytes(x)| < ROOT_BYTES {
      ShortRoot(x);
    } else {
      FullRoot(x);
    }
  }

  lemma SharedField()
    ensures LeftAligned(1) == LeftAligned(256)
  {
    assert MinBytes(1) == [1] && MinBytes(256) == [1, 0];
    assert [1, 0] + Zeros(30) == [1] + Zeros(31);
  }

  lemma ShortRoot(x: nat)
    requires 0 < x < Pow256(ROOT_BYTES) && |MinBytes(x)| < ROOT_BYTES
    ensures LeftAligned(x) != ToBE(x, ROOT_BYTES)
  {
    MinBytesFit(x, ROOT_BYTES);
    MinBytesFirst(x);
    hide MinBytes, ToBE;
    assert LeftAligned(x)[0] == MinBytes(x)[0];
    assert ToBE(x, ROOT_BYTES)[0] == 0;
  }

  lemma FullRoot(x: nat)
    requires x < Pow256(ROOT_BYTES) && |MinBytes(x)| == ROOT_BYTES
    ensures LeftAligned(x) == ToBE(x, ROOT_BYTES)
  {
    MinBytesFit(x, ROOT_BYTES);
    hide MinBytes, ToBE;
    assert LeftAligned(x) == MinBytes(x) + [];
    assert ToBE(x, ROOT_BYTES) == Zeros(0) + MinBytes(x);
  }

  lemma {:induction false} MinBytesFirst(x: nat)
    requires x > 0
    ensures |MinBytes(x)| > 0 && MinBytes(x)[0] != 0
  {
    if x >= 256 {
      MinBytesFirst(x / 256);
    }
  }

  lemma {:induction false} MinBytesLength(x: nat, n: nat)
    requires x < Pow256(n) && n > 0
    ensures |MinBytes(x)| == n <==> x >= Pow256(n - 1)
  {
    MinBytesFit(x, n);
    if x > 0 && n > 1 {
      MinBytesLength(x / 256, n - 1);
    }
  }

  // ---- filling ----

  // make, then copy to the front
  method FrontAligned(src: seq<byte>, n: nat) returns (r: seq<byte>)
    requires |src| <= n
    ensures r == src + Zeros(n - |src|)
  {
    var b := new byte[n](_ => 0);
    assert b[..] == [] + Zeros(n);
    Append(b, [], 0, src);
    assert [] + src == src;
    r := b[..];
  }

  lemma NextSlotFits(i: nat, n: nat, len: nat)
    requires i < n
    ensures (n - i) * len - len == (n - i - 1) * len && i * len + (n - i) * len == n * len
    ensures (i + 1) * len == i * len + len && i * len + len <= n * len
  {
    SlotBounds(i, n, len);
  }

  lemma OneMoreSlot(slots: seq<seq<byte>>, n: nat, len: nat, i: nat)
    requires |slots| <= n && AllOfLength(slots, len) && i < |slots|
    ensures Concat(slots[..i + 1]) == Concat(slots[..i]) + slots[i]
    ensures |Concat(slots[..i])| == i * len && |Concat(slots[..i + 1])| <= n * len
  {
    ConcatLength(slots[..i], len);
    NextSlotFits(i, n, len);
    assert slots[..i + 1][..i] == slots[..i];
  }

  lemma AllSlotsPut(slots: seq<seq<byte>>, n: nat, len: nat)
    requires |slots| <= n && AllOfLength(slots, len)
    ensures |Concat(slots[..|slots|])| <= n * len
    ensures Section(slots, n, len) == Concat(slots[..|slots|]) + Zeros(n * len - |Concat(slots[..|slots|])|)
  {
    assert slots[..|slots|] == slots;
    ConcatLength(slots, len);
    AllSlots(|slots|, n, len);
  }

  // Copy slot after slot into a zeroed buffer of n slots.
  method FillSlots(slots: seq<seq<byte>>, n: nat, len: nat) returns (r: seq<byte>)
    requires |slots| <= n && AllOfLength(slots, len)
    ensures r == Section(slots, n, len)
  {
    var b := new byte[n * len](_ => 0);
    assert b[..] == [] + Zeros(b.Length);
    assert Concat(slots[..0]) == [];
    AllSlotsPut(slots, n, len);
    hide Concat, AllOfLength, Zeros, Section;
    ghost var done := Concat(slots[..0]);
    for i := 0 to |slots|
      invariant done == Concat(slots[..i]) && |done| <= b.Length
      invariant b[..] == done + Zeros(b.Length - |done|)
    {
      OneMoreSlot(slots, n, len, i);
      Append(b, done, i * len, slots[i]);
      done := done + slots[i];
    }
    r := b[..];
  }

  method AppendSlots(slots: seq<seq<byte>>) returns (r: seq<byte>)
    ensures r == Concat(slots)
  {
    r := [];
    for i := 0 to |slots|
      invariant r == Concat(slots[..i])
    {
      assert slots[..i + 1][..i] == slots[..i];
      r := r + slots[i];
    }
    assert slots[..|slots|] == slots;
  }
}
