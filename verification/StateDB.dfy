// The state database object: accounts, address entries and tree in one key-value database. Read as
// plain maps it is a ledger, and its methods are the operations of the ledger.
module StateDBs {
  import opened Types
  import opened Bytes
  import opened Accounts
  import opened Ledgers
  import opened Batches
  import opened Stores
  import opened Checkpoints
  import opened KVDBs

  // ---- accounts in any storage with a tree over it ----

  // What is read is in range and has a canonical key.
  method GetAccountInTreeDB(sto: Storage, i: Idx) returns (r: Result<Account>)
    ensures r == GetLeaf(sto.s, i)
    ensures r.Ok? ==> Encodable(r.value) && Canonical(r.value)
  {
    if i > MAX_IDX {
      return Err(IdxOverflow);
    }
    if i !in sto.s.idxs {
      return Err(NotFound);
    }
    var hash := sto.s.idxs[i];
    if hash !in sto.s.leaves {
      return Err(NotFound);
    }
    var accBytes := sto.s.leaves[hash];
    if |accBytes| != LEAF_BYTES {
      return Err(BadLength);
    }
    r := Decode(accBytes);
    if r.Ok? {
      DecodedInRange(accBytes);
    }
  }

  // The outcome of a write: what it returned and what it left in the storage.
  ghost predicate Outcome(w: Write, e: Option<Error>, s: Snapshot) {
    w.s == s && (e.None? <==> w.Done?) && (w.Failed? ==> e == Some(w.error))
  }

  // The leaf is committed before the tree is changed, so a failure of the tree leaves it behind.
  method CreateAccountInTreeDB(sto: Storage, mt: Storage, i: Idx, a: Account) returns (e: Option<Error>)
    requires mt == sto
    modifies sto
    ensures Outcome(CreateLeaf(old(sto.s), i, a), e, sto.s)
  {
    var accBytes := AccountBytes(a);
    if accBytes.Err? {
      return Some(accBytes.error);
    }
    var v := HashValue(accBytes.value);
    if i > MAX_IDX {
      return Some(IdxOverflow);
    }
    if i in sto.s.idxs {
      return Some(AlreadyExists);
    }
    sto.s := sto.s.(leaves := sto.s.leaves[v := accBytes.value], idxs := sto.s.idxs[i := v]);
    if i in mt.s.tree {
      return Some(AlreadyExists);
    }
    mt.s := mt.s.(tree := mt.s.tree[i := v]);
    e := None;
  }

  method UpdateAccountInTreeDB(sto: Storage, mt: Storage, i: Idx, a: Account) returns (e: Option<Error>)
    requires mt == sto
    modifies sto
    ensures Outcome(UpdateLeaf(old(sto.s), i, a), e, sto.s)
  {
    var accBytes := AccountBytes(a);
    if accBytes.Err? {
      return Some(accBytes.error);
    }
    var v := HashValue(accBytes.value);
    if i > MAX_IDX {
      return Some(IdxOverflow);
    }
    sto.s := sto.s.(leaves := sto.s.leaves[v := accBytes.value], idxs := sto.s.idxs[i := v]);
    if i !in mt.s.tree {
      return Some(NotFound);
    }
    mt.s := mt.s.(tree := mt.s.tree[i := v]);
    e := None;
  }

  // ---- the state database ----

  // Every checkpoint can be read as a ledger.
  ghost predicate AllConsistent(checkpoints: map<nat, Snapshot>) {
    forall n :: n in checkpoints ==> Consistent(checkpoints[n])
  }

  lemma EmptyIsConsistent()
    ensures Consistent(EMPTY_SNAPSHOT) && LedgerOf(EMPTY_SNAPSHOT) == EMPTY_LEDGER
  {
  }

  class StateDB {
    const mode: Mode
    const kv: KVDB
    // The storage that the tree was opened over.
    var mt: Storage?
    ghost var led: Ledger

    // The working storage is open under both the accounts and the tree, and can be read as a ledger.
    ghost predicate Valid()
      reads this, kv, kv.db
    {
      && kv.Valid() && kv.db != null && mt == kv.db
      && Consistent(kv.db.s) && led == LedgerOf(kv.db.s)
      && kv.currentIdx == led.currentIdx
    }

    constructor (mode: Mode, kv: KVDB)
      requires kv.Valid() && kv.db != null && Consistent(kv.db.s) && kv.currentIdx == StoredIdx(kv.db.s)
      ensures Valid() && this.mode == mode && this.kv == kv && led == LedgerOf(kv.db.s)
    {
      this.mode := mode;
      this.kv := kv;
      this.mt := kv.db;
      this.led := LedgerOf(kv.db.s);
    }

    function CurrentIdx(): Idx
      reads this, kv
    {
      kv.currentIdx
    }

    function CurrentBatch(): nat
      reads this, kv
    {
      kv.currentBatch
    }

    method GetAccount(i: Idx) returns (r: Result<Account>)
      requires Valid()
      ensures r == led.Get(i)
      ensures r.Ok? ==> Encodable(r.value) && Canonical(r.value)
    {
      r := GetAccountInTreeDB(kv.db, i);
      GetRefines(kv.db.s, i);
    }

    // MT.Root
    method StateRoot() returns (r: Root)
      requires Valid()
      ensures r == AccountsRoot(led.accounts)
    {
      TreeIsOfAccounts(kv.db.s);
      r := RootOf(mt.s.tree);
    }

    method UpdateAccount(i: Idx, a: Account) returns (e: Option<Error>)
      requires Valid()
      modifies this`led, kv.db
      ensures e.None? <==> old(led).Update(i, a).Ok?
      ensures e.None? ==> Valid() && led == old(led).Update(i, a).value
    {
      ghost var before := kv.db.s;
      UpdateAccountRefines(before, i, a);
      e := UpdateAccountInTreeDB(kv.db, mt, i, a);
      if e.None? {
        led := led.Update(i, a).value;
      }
    }

    method CreateAccount(i: Idx, a: Account) returns (e: Option<Error>)
      requires Valid()
      modifies this`led, kv.db
      ensures e.None? <==> old(led).Create(i, a).Ok?
      ensures e.None? ==> Valid() && led == old(led).Create(i, a).value
    {
      ghost var before := kv.db.s;
      CreateAccountRefines(before, i, a);
      e := CreateAccountInTreeDB(kv.db, mt, i, a);
      if e.Some? {
        return;
      }
      SetIdxByEthAddrBJJ(i, a.ethAddr, a.bjj, a.tokenID);
      led := led.Create(i, a).value;
    }

    // GetIdxByEthAddr
    method GetIdxByEthAddr(addr: Addr, token: TokenID) returns (r: Result<Idx>)
      requires kv.db != null
      ensures r == if (addr, token) in kv.db.s.byAddr then Ok(kv.db.s.byAddr[(addr, token)]) else Err(IdxNotFound)
    {
      if (addr, token) !in kv.db.s.byAddr {
        return Err(IdxNotFound);
      }
      r := Ok(kv.db.s.byAddr[(addr, token)]);
    }

    method GetIdxByEthAddrBJJ(addr: Addr, pk: BJJ, token: TokenID) returns (r: Result<Idx>)
      requires kv.db != null
      ensures r == LookupIdx(kv.db.s, addr, pk, token)
      ensures Valid() ==> r == led.Lookup(addr, pk, token)
    {
      if addr != EMPTY_ADDR && pk == EMPTY_BJJ {
        r := GetIdxByEthAddr(addr, token);
      } else if addr != EMPTY_ADDR && pk != EMPTY_BJJ {
        if (addr, pk, token) !in kv.db.s.byAddrBjj {
          return Err(IdxNotFound);
        }
        r := Ok(kv.db.s.byAddrBjj[(addr, pk, token)]);
      } else {
        r := Err(UnexpectedKeyCombination);
      }
    }

    method SetIdxByEthAddrBJJ(i: Idx, addr: Addr, pk: BJJ, token: TokenID)
      requires kv.db != null && i <= MAX_IDX
      modifies kv.db
      ensures kv.db.s == PutIdx(old(kv.db.s), i, addr, pk, token)
    {
      var oldIdx := GetIdxByEthAddrBJJ(addr, pk, token);
      if oldIdx.Ok? && i >= oldIdx.value {
        return;
      }
      kv.db.s := kv.db.s.(byAddrBjj := kv.db.s.byAddrBjj[(addr, pk, token) := i]);
      kv.db.s := kv.db.s.(byAddr := kv.db.s.byAddr[(addr, token) := i]);
    }

    method SetCurrentIdx(i: Idx) returns (e: Option<Error>)
      requires Valid()
      modifies this`led, kv`currentIdx, kv.db
      ensures e.None? <==> led.SetCurrentIdx(i).Ok?
      ensures e.None? ==> Valid() && led == old(led).SetCurrentIdx(i).value
    {
      ghost var before := kv.db.s;
      e := kv.SetCurrentIdx(i);
      if e.None? {
        SameAccounts(before, kv.db.s);
        led := led.(currentIdx := i);
      }
    }

    // GetTokenIDsFromIdxs
    method GetTokenIDsFromIdxs(idxs: seq<Idx>) returns (r: Result<map<TokenID, Idx>>)
      requires Valid()
      ensures r.Ok? <==> CoordMap(led, idxs).Ok?
      ensures r.Ok? ==> r == CoordMap(led, idxs)
    {
      var m: map<TokenID, Idx> := map[];
      for i := 0 to |idxs|
        invariant CoordMap(led, idxs[..i]) == Ok(m)
      {
        assert idxs[..i + 1][..i] == idxs[..i];
        var a := GetAccount(idxs[i]);
        if a.Err? {
          CoordMapFails(led, idxs, i + 1);
          return Err(a.error);
        }
        m := m[a.value.tokenID := idxs[i]];
      }
      assert idxs[..|idxs|] == idxs;
      r := Ok(m);
    }

    // MakeCheckpoint changes no account.
    method MakeCheckpoint() returns (e: Option<Error>)
      requires Valid()
      modifies kv, kv.db
      ensures e.None? && Valid()
      ensures kv.State() == Checkpoint(kv.cfg, old(kv.State()))
      ensures kv.db == old(kv.db) && (kv.last != old(kv.last) ==> fresh(kv.last))
    {
      ghost var before := kv.db.s;
      e := kv.MakeCheckpoint();
      SameAccounts(before, kv.db.s);
    }

    // Reset: the tree is opened again over the new working storage.
    method Reset(b: nat) returns (e: Option<Error>)
      requires kv.Valid()
      modifies this, kv
      ensures kv.Valid() && (kv.db != null ==> fresh(kv.db)) && (kv.last != old(kv.last) ==> fresh(kv.last))
      ensures (e, kv.State()) == Checkpoints.Reset(kv.cfg, old(kv.State()), b)
      ensures e.None? && AllConsistent(old(kv.checkpoints)) ==> Valid() && led == LedgerOf(kv.db.s)
    {
      e := kv.Reset(b);
      if e.Some? {
        return;
      }
      mt := kv.db;
      EmptyIsConsistent();
      led := if Consistent(kv.db.s) then LedgerOf(kv.db.s) else EMPTY_LEDGER;
    }

    // The reset of a local database, from its own checkpoints or from the synchronizer's.
    method LocalReset(b: nat, fromSynchronizer: bool, sync: StateDB) returns (e: Option<Error>)
      requires kv.Valid() && sync.kv != kv
      modifies this, kv
      ensures kv.Valid() && (kv.db != null ==> fresh(kv.db))
      ensures (e, kv.State()) ==
        if fromSynchronizer then ResetFrom(kv.cfg, old(kv.State()), sync.kv.checkpoints, b)
        else Checkpoints.Reset(kv.cfg, old(kv.State()), b)
      ensures e.None? && AllConsistent(old(kv.checkpoints)) && AllConsistent(sync.kv.checkpoints) ==>
        Valid() && led == LedgerOf(kv.db.s)
    {
      if !fromSynchronizer {
        e := Reset(b);
        return;
      }
      e := kv.ResetFromSynchronizer(b, sync.kv);
      if e.Some? {
        return;
      }
      mt := kv.db;
      EmptyIsConsistent();
      led := if Consistent(kv.db.s) then LedgerOf(kv.db.s) else EMPTY_LEDGER;
    }
  }

  lemma {:induction false} CoordMapFails(led: Ledger, idxs: seq<Idx>, n: nat)
    requires n <= |idxs| && CoordMap(led, idxs[..n]).Err?
    ensures CoordMap(led, idxs).Err?
    decreases |idxs| - n
  {
    if n < |idxs| {
      assert idxs[..n + 1][..n] == idxs[..n];
      CoordMapFails(led, idxs, n + 1);
    } else {
      assert idxs[..n] == idxs;
    }
  }
}
