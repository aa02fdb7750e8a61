// What the synchronizer reads out of the published bytes.
module Slicing {
  import opened Types
  import opened Bytes
  import opened Txs
  import opened Codec
  import opened CoordTxBytes
  import Float40

  lemma NextSlot(i: nat, n: nat, len: nat)
    requires i < n
    ensures (i + 1) * len == i * len + len <= n * len
  {
    assert n * len == (i + 1) * len + (n - i - 1) * len;
  }

  lemma WholeSlots(n: nat, len: nat)
    requires len > 0
    ensures n * len / len == n
  {
    assert n * len == len * n + 0;
    DivUnique(n * len, len, n);
  }

  lemma DivUnique(x: nat, len: nat, n: nat)
    requires len > 0 && x == len * n
    ensures x / len == n
  {
    var q := x / len;
    assert len * q <= x < len * q + len;
    MulMonotone(len, q + 1, n);
    MulMonotone(len, n + 1, q);
  }

  lemma MulMonotone(len: nat, a: nat, b: nat)
    ensures a <= b ==> len * a <= len * b
  {
    if a <= b {
      assert len * b == len * a + len * (b - a);
    }
  }

  function Slot(data: seq<byte>, i: nat, len: nat): (s: seq<byte>)
    requires (i + 1) * len <= |data|
    ensures |s| == len
  {
    assert (i + 1) * len == i * len + len;
    data[i * len..(i + 1) * len]
  }

  // The first n records.
  function ParseL2s(data: seq<byte>, n: nat, w: nat): Result<seq<L2Tx>>
    requires WidthOK(w) && n * RecordLen(w) <= |data|
  {
    if n == 0 then Ok([])
    else
      NextSlot(n - 1, n, RecordLen(w));
      var front :- ParseL2s(data, n - 1, w);
      var last :- ParseRecord(Slot(data, n - 1, RecordLen(w)), w);
      Ok(front + [last])
  }

  // Fee indices are padded to six bytes; zero slots are dropped.
  function ParseFees(data: seq<byte>, n: nat, idxLen: nat): seq<Idx>
    requires idxLen <= 6 && n * idxLen <= |data|
  {
    if n == 0 then []
    else
      NextSlot(n - 1, n, idxLen);
      var i := FromBE(Zeros(6 - idxLen) + Slot(data, n - 1, idxLen));
      ParseFees(data, n - 1, idxLen) + if i != 0 then [i] else []
  }

  // The first n announced transactions of the coordinator.
  function ParseCoords(data: seq<byte>, n: nat, recover: Recover): Result<seq<L1Tx>>
    requires n * COORD_TOTAL_BYTES <= |data|
  {
    if n == 0 then Ok([])
    else
      NextSlot(n - 1, n, COORD_TOTAL_BYTES);
      var front :- ParseCoords(data, n - 1, recover);
      var last :- ParseCoord(Slot(data, n - 1, COORD_TOTAL_BYTES), recover);
      Ok(front + [last])
  }

  // What the record of a user transaction says.
  datatype L1Fields = L1Fields(fromIdx: Idx, toIdx: Idx, effectiveAmount: nat)

  function FieldsOf(records: seq<L2Tx>): (r: seq<L1Fields>)
    ensures |r| == |records|
  {
    seq(|records|, k requires 0 <= k < |records| =>
      L1Fields(records[k].fromIdx, records[k].toIdx, records[k].amount))
  }

  datatype Args = Args(l1User: seq<L1Fields>, l1Coord: seq<L1Tx>, l2: seq<L2Tx>, feeIdxs: seq<Idx>)

  // The L2 part starts behind the user and coordinator records.
  function L2Part(data: seq<byte>, begin: nat): seq<byte> {
    if begin < |data| then data[begin..] else []
  }

  // How many whole slots there are.
  function Slots(data: seq<byte>, len: nat): (n: nat)
    requires len > 0
    ensures n * len <= |data|
  {
    |data| / len
  }

  // The published call: the records of all transactions, the announced transactions of the
  // coordinator, and the fee indices.
  datatype Call = Call(data: seq<byte>, coordData: seq<byte>, feeData: seq<byte>)

  function ParseBatch(call: Call, l1UserLen: nat, w: nat, recover: Recover): Result<Args>
    requires WidthOK(w) && l1UserLen * RecordLen(w) <= |call.data|
  {
    var len := RecordLen(w);
    var l1CoordLen := Slots(call.coordData, COORD_TOTAL_BYTES);
    var user :- ParseL2s(call.data, l1UserLen, w);
    var part := L2Part(call.data, l1CoordLen * len + l1UserLen * len);
    var l2 :- ParseL2s(part, Slots(part, len), w);
    var coord :- ParseCoords(call.coordData, l1CoordLen, recover);
    Ok(Args(FieldsOf(user), coord, l2, ParseFees(call.feeData, Slots(call.feeData, w), w)))
  }

  // RollupForgeBatchArgs, without unpacking the call. Slicing out fewer user bytes than are there would
  // panic, so the caller must have them.
  method RollupForgeBatchArgs(call: Call, l1UserLen: nat, w: nat, recover: Recover) returns (r: Result<Args>)
    requires WidthOK(w) && l1UserLen * RecordLen(w) <= |call.data|
    ensures r.Ok? <==> ParseBatch(call, l1UserLen, w, recover).Ok?
    ensures r.Ok? ==> r == ParseBatch(call, l1UserLen, w, recover)
  {
    hide ParseL2s, ParseCoords, ParseFees, FieldsOf;
    var len := RecordLen(w);
    var numTxsL1Coord := Slots(call.coordData, COORD_TOTAL_BYTES);
    var l1UserTxs := ReadRecords(call.data, l1UserLen, w);
    if l1UserTxs.Err? {
      return Err(l1UserTxs.error);
    }
    var begin := numTxsL1Coord * len + l1UserLen * len;
    var part: seq<byte> := [];
    if begin < |call.data| {
      part := call.data[begin..];
    }
    var l2 := ReadRecords(part, Slots(part, len), w);
    if l2.Err? {
      return Err(l2.error);
    }
    var coords := ReadCoords(call.coordData, numTxsL1Coord, recover);
    if coords.Err? {
      return Err(coords.error);
    }
    var feeIdxs := ReadFees(call.feeData, w);
    r := Ok(Args(FieldsOf(l1UserTxs.value), coords.value, l2.value, feeIdxs));
  }

  // The loops over records: those of user transactions are read in the same way as those of L2, and
  // only without the fee.
  method ReadRecords(data: seq<byte>, n: nat, w: nat) returns (r: Result<seq<L2Tx>>)
    requires WidthOK(w) && n * RecordLen(w) <= |data|
    ensures r.Ok? <==> ParseL2s(data, n, w).Ok?
    ensures r.Ok? ==> r == ParseL2s(data, n, w)
  {
    var len := RecordLen(w);
    var txs: seq<L2Tx> := [];
    for i := 0 to n
      invariant i * len <= |data|
      invariant ParseL2s(data, i, w) == Ok(txs)
    {
      NextSlot(i, n, len);
      var tx := ParseRecord(Slot(data, i, len), w);
      if tx.Err? {
        ParseL2sFail(data, i + 1, n, w);
        return Err(tx.error);
      }
      txs := txs + [tx.value];
    }
    r := Ok(txs);
  }

  method ReadCoords(data: seq<byte>, n: nat, recover: Recover) returns (r: Result<seq<L1Tx>>)
    requires n * COORD_TOTAL_BYTES <= |data|
    ensures r.Ok? <==> ParseCoords(data, n, recover).Ok?
    ensures r.Ok? ==> r == ParseCoords(data, n, recover)
  {
    var txs: seq<L1Tx> := [];
    for i := 0 to n
      invariant i * COORD_TOTAL_BYTES <= |data|
      invariant ParseCoords(data, i, recover) == Ok(txs)
    {
      NextSlot(i, n, COORD_TOTAL_BYTES);
      var tx := ParseCoord(Slot(data, i, COORD_TOTAL_BYTES), recover);
      if tx.Err? {
        ParseCoordsFail(data, i + 1, n, recover);
        return Err(tx.error);
      }
      txs := txs + [tx.value];
    }
    r := Ok(txs);
  }

  method ReadFees(feeData: seq<byte>, idxLen: nat) returns (feeIdxs: seq<Idx>)
    requires 0 < idxLen <= 6
    ensures feeIdxs == ParseFees(feeData, Slots(feeData, idxLen), idxLen)
  {
    feeIdxs := [];
    var n := Slots(feeData, idxLen);
    for i := 0 to n
      invariant i * idxLen <= |feeData|
      invariant feeIdxs == ParseFees(feeData, i, idxLen)
    {
      NextSlot(i, n, idxLen);
      var idx := FromBE(Zeros(6 - idxLen) + Slot(feeData, i, idxLen));
      if idx != 0 {
        feeIdxs := feeIdxs + [idx];
      }
    }
  }

  lemma {:induction false} ParseL2sFail(data: seq<byte>, k: nat, n: nat, w: nat)
    requires WidthOK(w) && k <= n && n * RecordLen(w) <= |data| && k * RecordLen(w) <= |data|
    requires ParseL2s(data, k, w).Err?
    ensures ParseL2s(data, n, w).Err?
  {
    if k < n {
      NextSlot(n - 1, n, RecordLen(w));
      ParseL2sFail(data, k, n - 1, w);
    }
  }

  lemma {:induction false} ParseCoordsFail(data: seq<byte>, k: nat, n: nat, recover: Recover)
    requires k <= n && n * COORD_TOTAL_BYTES <= |data| && k * COORD_TOTAL_BYTES <= |data|
    requires ParseCoords(data, k, recover).Err?
    ensures ParseCoords(data, n, recover).Err?
  {
    if k < n {
      NextSlot(n - 1, n, COORD_TOTAL_BYTES);
      ParseCoordsFail(data, k, n - 1, recover);
    }
  }

  // ---- round trips ----

  // The synchronizer's slots are the builder's records.
  lemma {:induction false} L2BytesLength(txs: seq<L2Tx>, w: nat)
    requires WidthOK(w) && L2Bytes(txs, w).Ok?
    ensures |L2Bytes(txs, w).value| == |txs| * RecordLen(w)
  {
    if txs != [] {
      L2BytesLength(txs[..|txs| - 1], w);
      NextSlot(|txs| - 1, |txs|, RecordLen(w));
    }
  }

  lemma {:induction false} L1BytesLength(txs: seq<L1Tx>, w: nat)
    requires WidthOK(w) && L1Bytes(txs, w).Ok?
    ensures |L1Bytes(txs, w).value| == |txs| * RecordLen(w)
  {
    if txs != [] {
      L1BytesLength(txs[..|txs| - 1], w);
      NextSlot(|txs| - 1, |txs|, RecordLen(w));
    }
  }

  // Reading n records only looks at their bytes.
  lemma {:induction false} ParsePrefix(a: seq<byte>, b: seq<byte>, n: nat, w: nat)
    requires WidthOK(w) && n * RecordLen(w) <= |a|
    ensures ParseL2s(a + b, n, w) == ParseL2s(a, n, w)
  {
    if n > 0 {
      var len := RecordLen(w);
      NextSlot(n - 1, n, len);
      ParsePrefix(a, b, n - 1, w);
      SlotPrefix(a, b, n - 1, len);
    }
  }

  // A transaction that can be published: its indices fit the levels and its amount is representable.
  predicate Publishable(tx: L2Tx, w: nat) {
    tx.fromIdx < Pow256(w) && tx.toIdx < Pow256(w) && Float40.Encode(tx.amount).Ok?
  }

  function AllPublished(txs: seq<L2Tx>): (r: seq<L2Tx>)
    ensures |r| == |txs| && forall k :: 0 <= k < |txs| ==> r[k] == Published(txs[k])
  {
    seq(|txs|, k requires 0 <= k < |txs| => Published(txs[k]))
  }

  // One more record behind those already written.
  lemma OneMoreRecord(a: seq<byte>, b: seq<byte>, n: nat, w: nat, front: seq<L2Tx>, tx: L2Tx)
    requires WidthOK(w) && |a| == n * RecordLen(w) && |b| == RecordLen(w)
    requires ParseL2s(a, n, w) == Ok(front) && ParseRecord(b, w) == Ok(tx)
    ensures |a + b| == (n + 1) * RecordLen(w) && ParseL2s(a + b, n + 1, w) == Ok(front + [tx])
  {
    hide ParseRecord;
    NextSlot(n, n + 1, RecordLen(w));
    ParsePrefix(a, b, n, w);
    SlotBehind(a, b, n, RecordLen(w));
  }

  // Writing L2 records and reading them back gives the published transactions.
  lemma {:induction false} L2BytesRoundTrip(txs: seq<L2Tx>, w: nat)
    requires WidthOK(w) && forall k :: 0 <= k < |txs| ==> Publishable(txs[k], w)
    ensures L2Bytes(txs, w).Ok?
    ensures var data := L2Bytes(txs, w).value;
      && |data| == |txs| * RecordLen(w)
      && ParseL2s(data, |txs|, w) == Ok(AllPublished(txs))
  {
    hide ParseRecord, L2Record, Publishable, Published, RecordLen;
    if txs != [] {
      var n := |txs| - 1;
      var front := txs[..n];
      L2BytesRoundTrip(front, w);
      RecordPublished(txs[n], w);
      hide ParseL2s;
      OneMoreRecord(L2Bytes(front, w).value, L2Record(txs[n], w).value, n, w, AllPublished(front), Published(txs[n]));
      assert AllPublished(front) + [Published(txs[n])] == AllPublished(txs);
    }
  }

  lemma RecordPublished(tx: L2Tx, w: nat)
    requires WidthOK(w) && Publishable(tx, w)
    ensures L2Record(tx, w).Ok? && ParseRecord(L2Record(tx, w).value, w) == Ok(Published(tx))
  {
    RecordRoundTrip(tx.fromIdx, tx.toIdx, tx.amount, tx.fee, w);
  }

  function CutRecord(tx: L1Tx, w: nat): L2Tx
    requires w <= 6
  {
    L2Tx(Cut(tx.fromIdx, w), Cut(tx.toIdx, w), 0, tx.effectiveAmount, 0, 0, TypeUnset)
  }

  function CutRecords(txs: seq<L1Tx>, w: nat): (r: seq<L2Tx>)
    requires w <= 6
    ensures |r| == |txs| && forall k :: 0 <= k < |txs| ==> r[k] == CutRecord(txs[k], w)
  {
    seq(|txs|, k requires 0 <= k < |txs| => CutRecord(txs[k], w))
  }

  lemma RecordCut(tx: L1Tx, w: nat)
    requires WidthOK(w) && L1Record(tx, w).Ok?
    ensures ParseRecord(L1Record(tx, w).value, w) == Ok(CutRecord(tx, w))
  {
    RecordCuts(tx.fromIdx, tx.toIdx, tx.effectiveAmount, 0, w);
  }

  // Writing the records of user transactions and reading them back gives their effective amounts, and
  // their indices as far as they fit the levels.
  lemma {:induction false} L1BytesRoundTrip(txs: seq<L1Tx>, w: nat)
    requires WidthOK(w) && L1Bytes(txs, w).Ok?
    ensures var data := L1Bytes(txs, w).value;
      |data| == |txs| * RecordLen(w) && ParseL2s(data, |txs|, w) == Ok(CutRecords(txs, w))
  {
    hide ParseRecord, L1Record, CutRecord, RecordLen;
    if txs != [] {
      var n := |txs| - 1;
      var front := txs[..n];
      L1BytesRoundTrip(front, w);
      RecordCut(txs[n], w);
      hide ParseL2s;
      OneMoreRecord(L1Bytes(front, w).value, L1Record(txs[n], w).value, n, w, CutRecords(front, w),
                    CutRecord(txs[n], w));
      assert CutRecords(front, w) + [CutRecord(txs[n], w)] == CutRecords(txs, w);
    }
  }

  // One more slot behind those already written.
  lemma FeeStep(a: seq<byte>, i: Idx, n: nat, len: nat)
    requires 0 < len <= 6 && |a| == n * len && i < Pow256(len)
    ensures i <= MAX_IDX
    ensures var data := a + ToBE(i, 6)[6 - len..];
      && |data| == (n + 1) * len
      && ParseFees(data, n + 1, len) == ParseFees(a, n, len) + if i != 0 then [i] else []
  {
    IdxSurvives(i, len);
    var b := ToBE(i, 6)[6 - len..];
    NextSlot(n, n + 1, len);
    FeesPrefix(a, b, n, len);
    SlotBehind(a, b, n, len);
  }

  function FirstFees(feeIdxs: seq<Idx>, n: nat): seq<Idx> {
    if n <= |feeIdxs| then feeIdxs[..n] else feeIdxs
  }

  function FeeAt(feeIdxs: seq<Idx>, k: nat): Idx {
    if k < |feeIdxs| then feeIdxs[k] else 0
  }

  lemma NextFee(feeIdxs: seq<Idx>, n: nat, len: nat)
    requires len <= 6 && FeeBytes(feeIdxs, n, len).Ok? && FeeAt(feeIdxs, n) <= MAX_IDX
    ensures FeeBytes(feeIdxs, n + 1, len) == Ok(FeeBytes(feeIdxs, n, len).value + ToBE(FeeAt(feeIdxs, n), 6)[6 - len..])
  {
  }

  lemma NextFirst(feeIdxs: seq<Idx>, n: nat)
    requires forall k :: 0 <= k < |feeIdxs| ==> 0 < feeIdxs[k]
    ensures FirstFees(feeIdxs, n + 1)
      == FirstFees(feeIdxs, n) + if FeeAt(feeIdxs, n) != 0 then [FeeAt(feeIdxs, n)] else []
  {
    if n < |feeIdxs| {
      assert feeIdxs[..n + 1] == feeIdxs[..n] + [feeIdxs[n]];
    }
  }

  lemma NoFeesYet(feeIdxs: seq<Idx>, len: nat)
    requires len <= 6
    ensures FeeBytes(feeIdxs, 0, len) == Ok([]) && ParseFees([], 0, len) == FirstFees(feeIdxs, 0) == []
  {
  }

  // Fee slots read back to the fee indices that were put in.
  lemma {:induction false} FeeBytesRoundTrip(feeIdxs: seq<Idx>, n: nat, len: nat)
    requires 0 < len <= 6
    requires forall k :: 0 <= k < |feeIdxs| ==> 0 < feeIdxs[k] < Pow256(len)
    ensures FeeBytes(feeIdxs, n, len).Ok?
    ensures var data := FeeBytes(feeIdxs, n, len).value;
      |data| == n * len && ParseFees(data, n, len) == FirstFees(feeIdxs, n)
  {
    hide FeeBytes, ParseFees, FirstFees, Pow256;
    NoFeesYet(feeIdxs, len);
    if n > 0 {
      FeeBytesRoundTrip(feeIdxs, n - 1, len);
      FeeStep(FeeBytes(feeIdxs, n - 1, len).value, FeeAt(feeIdxs, n - 1), n - 1, len);
      NextFee(feeIdxs, n - 1, len);
      NextFirst(feeIdxs, n - 1);
    }
  }

  lemma SlotBehind(a: seq<byte>, b: seq<byte>, i: nat, len: nat)
    requires |a| == i * len && |b| == len
    ensures (i + 1) * len <= |a + b| && Slot(a + b, i, len) == b
  {
    NextSlot(i, i + 1, len);
  }

  lemma SlotPrefix(a: seq<byte>, b: seq<byte>, i: nat, len: nat)
    requires (i + 1) * len <= |a|
    ensures Slot(a + b, i, len) == Slot(a, i, len)
  {
    NextSlot(i, i + 1, len);
  }

  lemma {:induction false} FeesPrefix(a: seq<byte>, b: seq<byte>, n: nat, len: nat)
    requires len <= 6 && n * len <= |a|
    ensures ParseFees(a + b, n, len) == ParseFees(a, n, len)
  {
    if n > 0 {
      NextSlot(n - 1, n, len);
      FeesPrefix(a, b, n - 1, len);
      SlotPrefix(a, b, n - 1, len);
    }
  }

  lemma PartBehind(u: seq<byte>, c: seq<byte>, l: seq<byte>)
    ensures L2Part(u + c + l, |c| + |u|) == l
  {
    if l != [] {
      assert (u + c + l)[|c| + |u|..] == l;
    }
  }

  lemma WholeL2Part(txs: seq<L2Tx>, w: nat)
    requires WidthOK(w) && forall k :: 0 <= k < |txs| ==> Publishable(txs[k], w)
    ensures L2Bytes(txs, w).Ok?
    ensures var l := L2Bytes(txs, w).value;
      |l| == |txs| * RecordLen(w) && Slots(l, RecordLen(w)) == |txs| && ParseL2s(l, |txs|, w) == Ok(AllPublished(txs))
  {
    L2BytesRoundTrip(txs, w);
    WholeSlots(|txs|, RecordLen(w));
  }

  lemma WholeFeePart(feeIdxs: seq<Idx>, w: nat)
    requires WidthOK(w) && |feeIdxs| <= MAX_FEE_IDX
    requires forall k :: 0 <= k < |feeIdxs| ==> 0 < feeIdxs[k] < Pow256(w)
    ensures FeeBytes(feeIdxs, MAX_FEE_IDX, w).Ok?
    ensures var data := FeeBytes(feeIdxs, MAX_FEE_IDX, w).value;
      ParseFees(data, Slots(data, w), w) == feeIdxs
  {
    FeeBytesRoundTrip(feeIdxs, MAX_FEE_IDX, w);
    WholeSlots(MAX_FEE_IDX, w);
    assert |feeIdxs| == MAX_FEE_IDX ==> feeIdxs[..MAX_FEE_IDX] == feeIdxs;
  }

  // Parsing a batch is parsing its parts.
  lemma ParseParts(call: Call, l1UserLen: nat, l1CoordLen: nat, w: nat, recover: Recover, begin: nat)
    requires WidthOK(w) && l1UserLen * RecordLen(w) <= |call.data|
    requires l1CoordLen == Slots(call.coordData, COORD_TOTAL_BYTES)
    requires begin == l1CoordLen * RecordLen(w) + l1UserLen * RecordLen(w)
    ensures var part := L2Part(call.data, begin);
      var user := ParseL2s(call.data, l1UserLen, w);
      var l2 := ParseL2s(part, Slots(part, RecordLen(w)), w);
      var coord := ParseCoords(call.coordData, l1CoordLen, recover);
      user.Ok? && l2.Ok? && coord.Ok? ==>
        ParseBatch(call, l1UserLen, w, recover)
        == Ok(Args(FieldsOf(user.value), coord.value, l2.value, ParseFees(call.feeData, Slots(call.feeData, w), w)))
  {
    hide ParseL2s, ParseFees, ParseCoords, L2Part, Slots;
  }

  lemma RecordsInOrder(l1Coord: seq<L1Tx>, l1User: seq<L1Tx>, l2: seq<L2Tx>, w: nat)
    requires WidthOK(w) && L1Bytes(l1User, w).Ok? && L1Bytes(l1Coord, w).Ok? && L2Bytes(l2, w).Ok?
    ensures BatchBytes(l1Coord, l1User, l2, w)
      == Ok(L1Bytes(l1User, w).value + L1Bytes(l1Coord, w).value + L2Bytes(l2, w).value)
  {
    hide L1Bytes, L2Bytes;
  }

  // The announced transactions of the coordinator are those whose records are there.
  ghost predicate Announces(coordData: seq<byte>, recover: Recover, txs: seq<L1Tx>) {
    && Slots(coordData, COORD_TOTAL_BYTES) == |txs|
    && ParseCoords(coordData, |txs|, recover) == Ok(txs)
  }

  lemma UserPart(u: seq<byte>, rest: seq<byte>, n: nat, w: nat, records: seq<L2Tx>)
    requires WidthOK(w) && |u| == n * RecordLen(w) && ParseL2s(u, n, w) == Ok(records)
    ensures n * RecordLen(w) <= |u + rest| && ParseL2s(u + rest, n, w) == Ok(records)
  {
    ParsePrefix(u, rest, n, w);
  }

  // The synchronizer reads exactly what the builder wrote: the fields of the user transactions, cut to
  // the levels, the announced transactions of the coordinator, the L2 transactions and the fee indices.
  lemma BatchRoundTrip(l1Coord: seq<L1Tx>, l1User: seq<L1Tx>, l2: seq<L2Tx>, feeIdxs: seq<Idx>, w: nat,
                       coordData: seq<byte>, announced: seq<L1Tx>, recover: Recover)
    requires WidthOK(w) && L1Bytes(l1User, w).Ok? && L1Bytes(l1Coord, w).Ok?
    requires forall k :: 0 <= k < |l2| ==> Publishable(l2[k], w)
    requires |feeIdxs| <= MAX_FEE_IDX
    requires forall k :: 0 <= k < |feeIdxs| ==> 0 < feeIdxs[k] < Pow256(w)
    requires Announces(coordData, recover, announced) && |announced| == |l1Coord|
    ensures BatchBytes(l1Coord, l1User, l2, w).Ok? && FeeBytes(feeIdxs, MAX_FEE_IDX, w).Ok?
    ensures var data := BatchBytes(l1Coord, l1User, l2, w).value;
      && |l1User| * RecordLen(w) <= |data|
      && ParseBatch(Call(data, coordData, FeeBytes(feeIdxs, MAX_FEE_IDX, w).value), |l1User|, w, recover)
         == Ok(Args(FieldsOf(CutRecords(l1User, w)), announced, AllPublished(l2), feeIdxs))
  {
    hide ParseBatch, BatchBytes, ParseL2s, ParseFees, ParseCoords, L1Bytes, L2Bytes, FeeBytes, FieldsOf;
    hide RecordLen, Slots, L2Part, Publishable, Pow256;
    WholeL2Part(l2, w);
    WholeFeePart(feeIdxs, w);
    L1BytesRoundTrip(l1User, w);
    L1BytesLength(l1Coord, w);
    RecordsInOrder(l1Coord, l1User, l2, w);
    var u := L1Bytes(l1User, w).value;
    var c := L1Bytes(l1Coord, w).value;
    var l := L2Bytes(l2, w).value;
    PartBehind(u, c, l);
    UserPart(u, c + l, |l1User|, w, CutRecords(l1User, w));
    assert u + (c + l) == u + c + l;
    ParseParts(Call(u + c + l, coordData, FeeBytes(feeIdxs, MAX_FEE_IDX, w).value), |l1User|, |l1Coord|, w, recover,
               |c| + |u|);
  }
}
