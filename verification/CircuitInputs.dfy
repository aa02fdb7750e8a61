// The circuit inputs object that ProcessTxs fills for the builder: the intermediate states of the
// batch, and the data of its public input.
module CircuitInputs {
  import opened Types
  import opened Bytes
  import opened Accounts
  import opened Txs
  import opened Ledgers
  import opened Stores
  import opened Codec
  import opened UserTxBytes
  import opened PublicInput
  import Float40

  // An unset slot is the number 0, which is also the root of the empty tree.
  const ZERO_ROOT := RootOf(map[])

  // formatAccumulatedFees: the totals in the order of the fee plan, for the first n slots.
  function FormatFees(collected: map<TokenID, nat>, tokens: seq<TokenID>, n: nat): (r: seq<nat>)
    requires n <= |tokens|
    ensures |r| == |tokens|
  {
    seq(|tokens|, i requires 0 <= i < |tokens| =>
      if i < n && tokens[i] in collected then collected[tokens[i]] else 0)
  }

  method FormatAccumulatedFees(collected: map<TokenID, nat>, tokens: array<TokenID>, n: nat) returns (r: seq<nat>)
    requires n <= tokens.Length
    ensures r == FormatFees(collected, tokens[..], n)
  {
    var accFeeOut := new nat[tokens.Length](_ => 0);
    for i := 0 to n
      invariant forall k :: 0 <= k < tokens.Length ==>
        accFeeOut[k] == if k < i && tokens[k] in collected then collected[tokens[k]] else 0
    {
      if tokens[i] in collected {
        accFeeOut[i] := collected[tokens[i]];
      }
    }
    r := accFeeOut[..];
  }

  // The intermediate states as values, and what the metadata says about the transactions.
  datatype Trace = Trace(
    outIdx: seq<Idx>, stateRoot: seq<Root>, exitRoot: seq<Root>, accFee: seq<seq<nat>>)

  datatype Meta = Meta(newLastIdx: Idx, l1: seq<L1Tx>, l2: seq<L2Tx>)

  // The bytes are those of the transaction.
  ghost predicate WrittenL1(tx: L1Tx, data: seq<byte>, availability: seq<byte>, w: nat)
    requires WidthOK(w)
  {
    GenericBytes(tx) == Ok(data) && L1Record(tx, w) == Ok(availability)
  }

  ghost predicate WrittenL2(tx: L2Tx, data: seq<byte>, w: nat)
    requires WidthOK(w)
  {
    L2Record(tx, w) == Ok(data)
  }

  lemma EncodedFits(x: nat)
    ensures Float40.Encode(x).Ok? ==> Float40.ToBytes(Float40.Encode(x).value).Ok?
  {
    Float40.EncodeExact(x);
  }

  // The bytes of an L1 transaction can be made exactly when the circuit accepts its numbers.
  lemma InputsAreBytes(tx: L1Tx, w: nat)
    requires WidthOK(w)
    ensures InputsL1(tx) <==> GenericBytes(tx).Ok? && L1Record(tx, w).Ok?
  {
    EncodedFits(tx.depositAmount);
    EncodedFits(tx.amount);
    EncodedFits(tx.effectiveAmount);
  }

  function FillFrom<T>(slots: seq<T>, from: nat, v: T): (r: seq<T>)
    ensures |r| == |slots|
  {
    seq(|slots|, i requires 0 <= i < |slots| => if i >= from then v else slots[i])
  }

  datatype FeeTrace = FeeTrace(initRoot: Root, roots: seq<Root>, finalFees: seq<nat>, idxs: seq<Idx>)

  function Overwrite<T>(slots: seq<T>, src: seq<T>): (r: seq<T>)
    requires |src| <= |slots|
    ensures |r| == |slots|
  {
    src + slots[|src|..]
  }

  // Write a slot, if there is one.
  function Put<T>(slots: seq<T>, k: nat, v: T): (r: seq<T>)
    ensures |r| == |slots|
  {
    if k < |slots| then slots[k := v] else slots
  }

  // The part of the inputs that only the public input is made of.
  class Metadata {
    var newLastIdxRaw: Idx
    var newStateRootRaw: Root
    var newExitRootRaw: Root
    var l1TxsData: seq<seq<byte>>
    var l1TxsDataAvailability: seq<seq<byte>>
    var l2TxsData: seq<seq<byte>>
    // The transactions that the bytes are of.
    ghost var l1: seq<L1Tx>
    ghost var l2: seq<L2Tx>

    ghost predicate Valid(w: nat)
      reads this
    {
      && WidthOK(w) && |l1TxsData| == |l1TxsDataAvailability| == |l1| && |l2TxsData| == |l2|
      && (forall i :: 0 <= i < |l1| ==> WrittenL1(l1[i], l1TxsData[i], l1TxsDataAvailability[i], w))
      && (forall i :: 0 <= i < |l2| ==> WrittenL2(l2[i], l2TxsData[i], w))
    }

    constructor ()
      ensures newLastIdxRaw == 0 && newStateRootRaw == newExitRootRaw == ZERO_ROOT
      ensures l1 == [] && l2 == [] && forall w | WidthOK(w) :: Valid(w)
    {
      l1, l2 := [], [];
      newLastIdxRaw := 0;
      newStateRootRaw, newExitRootRaw := ZERO_ROOT, ZERO_ROOT;
      l1TxsData, l1TxsDataAvailability, l2TxsData := [], [], [];
    }
  }

  // A new array whose slots all hold v.
  method Slots<T>(n: nat, v: T) returns (a: array<T>)
    ensures fresh(a) && a.Length == n && a[..] == seq(n, _ => v)
  {
    a := new T[n](_ => v);
  }

  class ZKInputs {
    const cfg: Config
    const currentNumBatch: nat
    const metadata: Metadata
    const oldLastIdx: Idx
    const oldStateRoot: Root
    const feeIdxs: array<Idx>
    const feePlanTokens: array<TokenID>
    const isOutIdx: array<Idx>
    const isStateRoot: array<Root>
    const isExitRoot: array<Root>
    const isAccFeeOut: array<seq<nat>>
    const isStateRootFee: array<Root>
    var isInitStateRootFee: Root
    const isFinalAccFee: array<nat>

    // There is one intermediate state less than transactions, and than coordinator accounts.
    ghost predicate Valid() {
      && cfg.maxTx > 0 && cfg.maxFeeTx > 0
      && isOutIdx.Length == isStateRoot.Length == isExitRoot.Length == isAccFeeOut.Length == cfg.maxTx - 1
      && feeIdxs.Length == feePlanTokens.Length == isFinalAccFee.Length == cfg.maxFeeTx
      && isStateRootFee.Length == cfg.maxFeeTx - 1
      && isStateRoot != isExitRoot && isStateRoot != isStateRootFee && isExitRoot != isStateRootFee
      && isOutIdx != feeIdxs && isOutIdx != isFinalAccFee && feeIdxs != isFinalAccFee
    }

    // NewZKInputs: everything starts at zero, but for what is known of the state before the batch.
    constructor (cfg: Config, batch: nat, oldLastIdx: Idx, oldStateRoot: Root)
      requires cfg.maxTx > 0 && cfg.maxFeeTx > 0
      ensures Valid() && this.cfg == cfg && currentNumBatch == batch
      ensures this.oldLastIdx == oldLastIdx && this.oldStateRoot == oldStateRoot
      ensures fresh(feeIdxs) && fresh(feePlanTokens) && fresh(isOutIdx) && fresh(isStateRoot) && fresh(isExitRoot)
      ensures fresh(isAccFeeOut) && fresh(isStateRootFee) && fresh(isFinalAccFee)
      ensures fresh(metadata) && Log() == Meta(0, [], []) && forall w | WidthOK(w) :: metadata.Valid(w)
      ensures forall i :: 0 <= i < cfg.maxFeeTx ==> feePlanTokens[i] == 0
      ensures Payout() == BlankFees(cfg)
      ensures View() == Blank(cfg)
    {
      this.cfg := cfg;
      currentNumBatch := batch;
      metadata := new Metadata();
      this.oldLastIdx, this.oldStateRoot := oldLastIdx, oldStateRoot;
      isInitStateRootFee := ZERO_ROOT;
      var idxs := Slots<Idx>(cfg.maxFeeTx, 0);
      var tokens := Slots<TokenID>(cfg.maxFeeTx, 0);
      var outIdxs := Slots<Idx>(cfg.maxTx - 1, 0);
      var stateRoots := Slots(cfg.maxTx - 1, ZERO_ROOT);
      var exitRoots := Slots(cfg.maxTx - 1, ZERO_ROOT);
      var fees := Slots(cfg.maxTx - 1, seq(cfg.maxFeeTx, _ => 0));
      var feeRoots := Slots(cfg.maxFeeTx - 1, ZERO_ROOT);
      var finalFees := Slots<nat>(cfg.maxFeeTx, 0);
      feeIdxs, feePlanTokens, isFinalAccFee := idxs, tokens, finalFees;
      isOutIdx, isStateRoot, isExitRoot, isAccFeeOut := outIdxs, stateRoots, exitRoots, fees;
      isStateRootFee := feeRoots;
    }

    ghost function Frame(): set<object> {
      {this, metadata, feeIdxs, feePlanTokens, isOutIdx, isStateRoot, isExitRoot, isAccFeeOut, isStateRootFee,
       isFinalAccFee}
    }

    ghost function View(): Trace
      reads isOutIdx, isStateRoot, isExitRoot, isAccFeeOut
    {
      Trace(isOutIdx[..], isStateRoot[..], isExitRoot[..], isAccFeeOut[..])
    }

    ghost function Log(): Meta
      reads metadata
    {
      Meta(metadata.newLastIdxRaw, metadata.l1, metadata.l2)
    }

    // The intermediate state after transaction k, with or without the exit root.
    method SetState(k: nat, outIdx: Idx, root: Root, exitRoot: Option<Root>)
      requires Valid() && k < cfg.maxTx - 1
      modifies isOutIdx, isStateRoot, isExitRoot
      ensures View() == old(View()).(
        outIdx := Put(old(View()).outIdx, k, outIdx), stateRoot := Put(old(View()).stateRoot, k, root),
        exitRoot := if exitRoot.Some? then Put(old(View()).exitRoot, k, exitRoot.value) else old(View()).exitRoot)
    {
      isOutIdx[k] := outIdx;
      isStateRoot[k] := root;
      if exitRoot.Some? {
        isExitRoot[k] := exitRoot.value;
      }
    }

    // The exit root alone, if there is a slot for it.
    method SetExitRoot(k: nat, root: Root)
      requires Valid()
      modifies isExitRoot
      ensures View() == old(View()).(exitRoot := Put(old(View()).exitRoot, k, root))
    {
      if k < isExitRoot.Length {
        isExitRoot[k] := root;
      }
    }

    // Every slot from `from` on.
    method Fill(from: nat, outIdx: Idx, root: Root, exitRoot: Root, fees: seq<nat>)
      requires Valid()
      modifies isOutIdx, isStateRoot, isExitRoot, isAccFeeOut
      ensures View() == Trace(FillFrom(old(View()).outIdx, from, outIdx), FillFrom(old(View()).stateRoot, from, root),
                              FillFrom(old(View()).exitRoot, from, exitRoot), FillFrom(old(View()).accFee, from, fees))
    {
      var i := from;
      while i < cfg.maxTx
        invariant i >= from
        invariant forall j :: 0 <= j < cfg.maxTx - 1 ==>
          && isOutIdx[j] == (if from <= j < i then outIdx else old(isOutIdx[j]))
          && isStateRoot[j] == (if from <= j < i then root else old(isStateRoot[j]))
          && isExitRoot[j] == (if from <= j < i then exitRoot else old(isExitRoot[j]))
          && isAccFeeOut[j] == (if from <= j < i then fees else old(isAccFeeOut[j]))
      {
        if i < cfg.maxTx - 1 {
          isOutIdx[i] := outIdx;
          isStateRoot[i] := root;
          isAccFeeOut[i] := fees;
          isExitRoot[i] := exitRoot;
        }
        i := i + 1;
      }
    }

    method SetAccFee(k: nat, fees: seq<nat>)
      requires Valid() && k < cfg.maxTx - 1
      modifies isAccFeeOut
      ensures View() == old(View()).(accFee := Put(old(View()).accFee, k, fees))
    {
      isAccFeeOut[k] := fees;
    }

    // The fee payments as values: the root before them, the roots after each, what is paid and to whom.
    ghost function Payout(): FeeTrace
      reads this`isInitStateRootFee, isStateRootFee, isFinalAccFee, feeIdxs
    {
      FeeTrace(isInitStateRootFee, isStateRootFee[..], isFinalAccFee[..], feeIdxs[..])
    }

    // What is known before the fees are paid.
    method OpenPayout(root: Root, fees: seq<nat>)
      requires Valid() && |fees| == cfg.maxFeeTx
      modifies this`isInitStateRootFee, isFinalAccFee
      ensures Payout() == old(Payout()).(initRoot := root, finalFees := fees)
    {
      for i := 0 to |fees|
        invariant forall j :: 0 <= j < isFinalAccFee.Length ==>
          isFinalAccFee[j] == if j < i then fees[j] else old(isFinalAccFee[j])
        invariant isInitStateRootFee == old(isInitStateRootFee)
      {
        isFinalAccFee[i] := fees[i];
      }
      isInitStateRootFee := root;
    }

    // The slots that no payment used, and the accounts that were paid.
    method ClosePayout(from: nat, root: Root, coordIdxs: seq<Idx>)
      requires Valid() && |coordIdxs| <= cfg.maxFeeTx
      modifies isStateRootFee, feeIdxs
      ensures Payout() == old(Payout()).(
        roots := FillFrom(old(Payout()).roots, from, root), idxs := Overwrite(old(Payout()).idxs, coordIdxs))
    {
      var i := from;
      while i < cfg.maxFeeTx - 1
        invariant from <= i && feeIdxs[..] == old(feeIdxs[..])
        invariant forall j :: 0 <= j < isStateRootFee.Length ==>
          isStateRootFee[j] == if from <= j < i then root else old(isStateRootFee[j])
      {
        isStateRootFee[i] := root;
        i := i + 1;
      }
      for k := 0 to |coordIdxs|
        invariant forall j :: 0 <= j < feeIdxs.Length ==>
          feeIdxs[j] == if j < k then coordIdxs[j] else old(feeIdxs[j])
        invariant isStateRootFee[..] == FillFrom(old(isStateRootFee[..]), from, root)
      {
        feeIdxs[k] := coordIdxs[k];
      }
    }

    // Append the bytes of an L1 transaction.
    method LogL1(tx: L1Tx) returns (e: Option<Error>)
      requires LevelsOK(cfg.nLevels) && metadata.Valid(cfg.nLevels / 8)
      modifies metadata
      ensures e.None? <==> InputsL1(tx)
      ensures e.None? ==> metadata.Valid(cfg.nLevels / 8) && Log() == old(Log()).(l1 := old(Log()).l1 + [tx])
    {
      RecordLenIs(cfg.nLevels);
      InputsAreBytes(tx, cfg.nLevels / 8);
      var l1TxData := BytesGeneric(tx);
      if l1TxData.Err? {
        return Some(l1TxData.error);
      }
      metadata.l1TxsData := metadata.l1TxsData + [l1TxData.value];
      var availability := BytesDataAvailability(tx.fromIdx, tx.toIdx, tx.effectiveAmount, 0, cfg.nLevels / 8);
      if availability.Err? {
        return Some(availability.error);
      }
      metadata.l1TxsDataAvailability := metadata.l1TxsDataAvailability + [availability.value];
      assert WrittenL1(tx, l1TxData.value, availability.value, cfg.nLevels / 8);
      metadata.l1 := metadata.l1 + [tx];
      e := None;
    }

    method LogL2(tx: L2Tx) returns (e: Option<Error>)
      requires LevelsOK(cfg.nLevels) && metadata.Valid(cfg.nLevels / 8)
      modifies metadata
      ensures e.None? <==> tx.fromIdx <= MAX_IDX && tx.toIdx <= MAX_IDX && Float40.Encode(tx.amount).Ok?
      ensures e.None? ==> metadata.Valid(cfg.nLevels / 8) && Log() == old(Log()).(l2 := old(Log()).l2 + [tx])
    {
      RecordLenIs(cfg.nLevels);
      EncodedFits(tx.amount);
      var l2TxData := BytesDataAvailability(tx.fromIdx, tx.toIdx, tx.amount, tx.fee, cfg.nLevels / 8);
      if l2TxData.Err? {
        return Some(l2TxData.error);
      }
      metadata.l2TxsData := metadata.l2TxsData + [l2TxData.value];
      assert WrittenL2(tx, l2TxData.value, cfg.nLevels / 8);
      metadata.l2 := metadata.l2 + [tx];
      e := None;
    }

    // What the object says about the public input; the library's forms of the roots are given.
    ghost function Published(number: Root -> nat, bytes: Root -> seq<byte>): Public
      reads this, metadata, feeIdxs
    {
      var m := metadata;
      Public(oldLastIdx, m.newLastIdxRaw, number(oldStateRoot), bytes(m.newStateRootRaw), bytes(m.newExitRootRaw),
             m.l1TxsData, m.l1TxsDataAvailability, m.l2TxsData, feeIdxs[..], cfg.chainID, currentNumBatch)
    }

    // ToHashGlobalData: every part is a zeroed buffer that is filled from the front or from the back.
    method ToHashGlobalData(number: Root -> nat, bytes: Root -> seq<byte>) returns (r: Result<seq<byte>>)
      requires feeIdxs.Length == cfg.maxFeeTx && Buffered(cfg, Published(number, bytes))
      ensures r.Ok? <==> Fits(cfg, Published(number, bytes))
      ensures r.Ok? ==> r.value == GlobalData(cfg, Published(number, bytes))
    {
      Pow256Values();
      var oldIdx := RightAligned(oldLastIdx, MAX_LEVEL_BYTES);
      var newIdx :- IdxBytes(metadata.newLastIdxRaw);
      RootFits(number(oldStateRoot));
      var oldRoot := FrontAligned(MinBytes(number(oldStateRoot)), ROOT_BYTES);
      var header := oldIdx + newIdx + oldRoot + bytes(metadata.newStateRootRaw) + bytes(metadata.newExitRootRaw);
      var l1 := FillSlots(metadata.l1TxsData, cfg.maxL1Tx, L1_TOTAL_BYTES);
      var records :- PadRecords(metadata.l1TxsDataAvailability, metadata.l2TxsData, cfg.maxTx,
                               RecordLen(cfg.nLevels / 8));
      var fees := AppendFeeIdxs(cfg.nLevels / 8);
      var batch := RightAligned(currentNumBatch, 4);
      r := Ok(header + l1 + records + fees + ToBE(cfg.chainID, 2) + batch);
    }

    method AppendFeeIdxs(w: nat) returns (r: seq<byte>)
      requires forall i :: 0 <= i < feeIdxs.Length ==> feeIdxs[i] < Pow256(w)
      ensures r == Concat(FeeSlots(feeIdxs[..], w))
    {
      ghost var slots := FeeSlots(feeIdxs[..], w);
      r := [];
      for i := 0 to feeIdxs.Length
        invariant r == Concat(slots[..i])
      {
        var b := RightAligned(feeIdxs[i], w);
        assert slots[..i + 1][..i] == slots[..i];
        r := r + b;
      }
      assert slots[..feeIdxs.Length] == slots;
    }
  }

  // The records of both layers, then zeros up to n of them.
  method PadRecords(l1: seq<seq<byte>>, l2: seq<seq<byte>>, n: nat, len: nat) returns (r: Result<seq<byte>>)
    requires AllOfLength(l2, len) && len > 0 && (|l2| > n || |l1| + |l2| <= n)
    ensures r.Ok? <==> |l2| <= n
    ensures r.Ok? ==> r.value == Section(l1 + l2, n, len)
  {
    var availability := AppendSlots(l1);
    var data := AppendSlots(l2);
    ConcatLength(l2, len);
    TooLong(|l2|, n, len);
    if |data| > n * len {
      return Err(BadLength);
    }
    hide Concat;
    ConcatAppend(l1, l2);
    var free := n - |l1 + l2|;
    var padding := ZeroBytes(free, len);
    r := Ok(availability + data + padding);
  }

  method ZeroBytes(n: nat, len: nat) returns (r: seq<byte>)
    ensures r == Zeros(n * len)
  {
    var padding := new byte[n * len](_ => 0);
    r := padding[..];
  }

  lemma TooLong(k: nat, n: nat, len: nat)
    requires len > 0
    ensures k * len > n * len <==> k > n
  {
    if k > n {
      SlotBounds(n, k, len);
    } else {
      assert (n - k) * len >= 0 && n * len == k * len + (n - k) * len;
    }
  }

  function BlankFees(cfg: Config): FeeTrace
    requires cfg.maxFeeTx > 0
  {
    FeeTrace(ZERO_ROOT, seq(cfg.maxFeeTx - 1, _ => ZERO_ROOT), seq(cfg.maxFeeTx, _ => 0), seq(cfg.maxFeeTx, _ => 0))
  }

  function Blank(cfg: Config): Trace
    requires cfg.maxTx > 0
  {
    Trace(seq(cfg.maxTx - 1, _ => 0), seq(cfg.maxTx - 1, _ => ZERO_ROOT), seq(cfg.maxTx - 1, _ => ZERO_ROOT),
          seq(cfg.maxTx - 1, _ => seq(cfg.maxFeeTx, _ => 0)))
  }
}
