// The key-value store behind a state database: accounts go through a hash indirection, and the tree
// holds the same hashes. Everything a pebble storage holds is one snapshot value.
module Stores {
  import opened Types
  import opened Bytes
  import opened Accounts
  import opened Ledgers

  // The key prefixes split the storage into separate maps.
  datatype Snapshot = Snapshot(
    idxs: map<Idx, Digest>,
    leaves: map<Digest, seq<byte>>,
    tree: map<Idx, Digest>,
    byAddr: map<AddrKey, Idx>,
    byAddrBjj: map<AddrBjjKey, Idx>,
    currentIdx: Option<Idx>,
    currentBatch: Option<nat>)

  const EMPTY_SNAPSHOT := Snapshot(map[], map[], map[], map[], map[], None, None)

  // The root of a sparse Merkle tree is a function of its leaves that collides for no two trees.
  datatype Root = RootOf(leaves: map<Idx, Digest>)

  // A write either succeeds or stops half-way; both leave a storage behind.
  datatype Write = Done(s: Snapshot) | Failed(error: Error, s: Snapshot)

  function StoredIdx(s: Snapshot): Idx {
    if s.currentIdx.Some? then s.currentIdx.value else RESERVED_IDX
  }

  function StoredBatch(s: Snapshot): nat {
    if s.currentBatch.Some? then s.currentBatch.value else 0
  }

  // GetAccountInTreeDB: index to hash to bytes to account
  function GetLeaf(s: Snapshot, i: Idx): Result<Account> {
    if i > MAX_IDX then Err(IdxOverflow)
    else if i !in s.idxs || s.idxs[i] !in s.leaves then Err(NotFound)
    else if |s.leaves[s.idxs[i]]| != LEAF_BYTES then Err(BadLength)
    else Decode(s.leaves[s.idxs[i]])
  }

  function PutLeaf(s: Snapshot, i: Idx, b: seq<byte>): Snapshot
    requires |b| == LEAF_BYTES
  {
    s.(leaves := s.leaves[HashValue(b) := b], idxs := s.idxs[i := HashValue(b)])
  }

  // CreateAccountInTreeDB
  function CreateLeaf(s: Snapshot, i: Idx, a: Account): Write {
    var b := Encode(a);
    if b.Err? then Failed(b.error, s)
    else if i > MAX_IDX then Failed(IdxOverflow, s)
    else if i in s.idxs then Failed(AlreadyExists, s)
    else
      var s1 := PutLeaf(s, i, b.value);
      if i in s.tree then Failed(AlreadyExists, s1) else Done(s1.(tree := s1.tree[i := HashValue(b.value)]))
  }

  // UpdateAccountInTreeDB
  function UpdateLeaf(s: Snapshot, i: Idx, a: Account): Write {
    var b := Encode(a);
    if b.Err? then Failed(b.error, s)
    else if i > MAX_IDX then Failed(IdxOverflow, s)
    else
      var s1 := PutLeaf(s, i, b.value);
      if i !in s.tree then Failed(NotFound, s1) else Done(s1.(tree := s1.tree[i := HashValue(b.value)]))
  }

  // ---- what the store means ----

  ghost predicate LeafBytes(b: seq<byte>) {
    |b| == LEAF_BYTES && Decode(b).Ok? && Layout(Decode(b).value) == b
  }

  ghost predicate LeafOK(s: Snapshot, d: Digest)
    requires d in s.leaves
  {
    LeafBytes(s.leaves[d]) && HashValue(s.leaves[d]) == d
  }

  // The tree holds exactly the hash stored for each index, and each hash leads to the bytes it is
  // the hash of.
  ghost predicate Consistent(s: Snapshot) {
    && s.tree == s.idxs
    && (forall i :: i in s.idxs ==> i <= MAX_IDX && s.idxs[i] in s.leaves)
    && (forall d {:trigger LeafOK(s, d)} :: d in s.leaves ==> LeafOK(s, d))
  }

  ghost function AccountsOf(s: Snapshot): map<Idx, Account>
    requires Consistent(s)
  {
    map i | i in s.idxs :: LeafAt(s, i)
  }

  ghost function LeafAt(s: Snapshot, i: Idx): Account
    requires Consistent(s) && i in s.idxs
  {
    assert LeafOK(s, s.idxs[i]);
    Decode(s.leaves[s.idxs[i]]).value
  }

  // The storage, read as plain maps.
  ghost function LedgerOf(s: Snapshot): Ledger
    requires Consistent(s)
  {
    Ledger(AccountsOf(s), StoredIdx(s), s.byAddr, s.byAddrBjj)
  }

  lemma GetRefines(s: Snapshot, i: Idx)
    requires Consistent(s)
    ensures GetLeaf(s, i) == LedgerOf(s).Get(i)
  {
    if i in s.idxs {
      assert LeafOK(s, s.idxs[i]);
    }
  }

  function WriteLeaf(s: Snapshot, i: Idx, b: seq<byte>): Snapshot
    requires |b| == LEAF_BYTES
  {
    PutLeaf(s, i, b).(tree := s.tree[i := HashValue(b)])
  }

  // Writing bytes under their hash disturbs no other leaf: equal hashes mean equal bytes.
  lemma WriteKeepsLeaves(s: Snapshot, i: Idx, b: seq<byte>)
    requires Consistent(s) && LeafBytes(b)
    ensures var s' := WriteLeaf(s, i, b);
      && (forall d :: d in s'.leaves ==> LeafOK(s', d))
      && (forall d :: d in s.leaves ==> d in s'.leaves && s'.leaves[d] == s.leaves[d])
  {
    var s' := WriteLeaf(s, i, b);
    forall d | d in s.leaves
      ensures LeafOK(s, d) && s'.leaves[d] == s.leaves[d]
    {
      assert LeafOK(s, d);
      if d == HashValue(b) {
        HashInjective(b, s.leaves[d]);
      }
    }
  }

  lemma WriteConsistent(s: Snapshot, i: Idx, b: seq<byte>)
    requires Consistent(s) && LeafBytes(b) && i <= MAX_IDX
    ensures Consistent(WriteLeaf(s, i, b))
  {
    WriteKeepsLeaves(s, i, b);
  }

  // A leaf is read from the bytes that its index leads to.
  lemma LeafOfBytes(s: Snapshot, s': Snapshot, j: Idx)
    requires Consistent(s) && Consistent(s') && j in s.idxs && j in s'.idxs
    requires s'.leaves[s'.idxs[j]] == s.leaves[s.idxs[j]]
    ensures LeafAt(s', j) == LeafAt(s, j)
  {
  }

  lemma LeafAfterWrite(s: Snapshot, i: Idx, b: seq<byte>, j: Idx)
    requires Consistent(s) && LeafBytes(b) && Consistent(WriteLeaf(s, i, b))
    requires j in s.idxs && j != i
    ensures LeafAt(WriteLeaf(s, i, b), j) == LeafAt(s, j)
  {
    WriteKeepsLeaves(s, i, b);
    LeafOfBytes(s, WriteLeaf(s, i, b), j);
  }

  // Two storages that agree on every leaf but one.
  lemma OneLeafChanged(s: Snapshot, s': Snapshot, i: Idx, a: Account)
    requires Consistent(s) && Consistent(s')
    requires s'.idxs.Keys == s.idxs.Keys + {i}
    requires LeafAt(s', i) == a
    requires forall j :: j in s.idxs && j != i ==> LeafAt(s', j) == LeafAt(s, j)
    ensures AccountsOf(s') == AccountsOf(s)[i := a]
  {
    var m := AccountsOf(s');
    var m' := AccountsOf(s)[i := a];
    assert m.Keys == m'.Keys;
    forall j | j in m
      ensures m[j] == m'[j]
    {
      assert j == i || j in s.idxs;
    }
  }

  lemma WriteAccounts(s: Snapshot, i: Idx, b: seq<byte>)
    requires Consistent(s) && LeafBytes(b) && Consistent(WriteLeaf(s, i, b))
    ensures AccountsOf(WriteLeaf(s, i, b)) == AccountsOf(s)[i := Decode(b).value]
  {
    var s' := WriteLeaf(s, i, b);
    assert s'.leaves[s'.idxs[i]] == b;
    forall j | j in s.idxs && j != i
      ensures LeafAt(s', j) == LeafAt(s, j)
    {
      LeafAfterWrite(s, i, b, j);
    }
    OneLeafChanged(s, s', i, Decode(b).value);
  }

  // Writing the bytes of an account makes exactly its index map to its canonical form.
  lemma PutRefines(s: Snapshot, i: Idx, a: Account)
    requires Consistent(s) && Encodable(a) && i <= MAX_IDX
    ensures Encode(a).Ok?
    ensures var s' := WriteLeaf(s, i, Encode(a).value);
      Consistent(s') && AccountsOf(s') == AccountsOf(s)[i := Canon(a)]
  {
    RoundTrip(a);
    WriteConsistent(s, i, Encode(a).value);
    WriteAccounts(s, i, Encode(a).value);
  }

  // Creating through the indirection is creating in a plain map, address entries aside.
  lemma CreateRefines(s: Snapshot, i: Idx, a: Account)
    requires Consistent(s)
    ensures CreateLeaf(s, i, a).Done? <==> LedgerOf(s).Create(i, a).Ok?
    ensures CreateLeaf(s, i, a).Done? ==>
      var s' := CreateLeaf(s, i, a).s;
      && Consistent(s') && AccountsOf(s') == AccountsOf(s)[i := Canon(a)]
      && s' == s.(idxs := s'.idxs, leaves := s'.leaves, tree := s'.tree)
  {
    if CreateLeaf(s, i, a).Done? {
      PutRefines(s, i, a);
    }
  }

  lemma UpdateRefines(s: Snapshot, i: Idx, a: Account)
    requires Consistent(s)
    ensures UpdateLeaf(s, i, a).Done? <==> LedgerOf(s).Update(i, a).Ok?
    ensures UpdateLeaf(s, i, a).Done? ==>
      var s' := UpdateLeaf(s, i, a).s;
      && Consistent(s') && AccountsOf(s') == AccountsOf(s)[i := Canon(a)]
      && s' == s.(idxs := s'.idxs, leaves := s'.leaves, tree := s'.tree)
  {
    if UpdateLeaf(s, i, a).Done? {
      PutRefines(s, i, a);
    }
  }

  // ---- the address entries and the current index ----

  function LookupIdx(s: Snapshot, addr: Addr, pk: BJJ, token: TokenID): Result<Idx> {
    Ledger(map[], 0, s.byAddr, s.byAddrBjj).Lookup(addr, pk, token)
  }

  function PutIdx(s: Snapshot, i: Idx, addr: Addr, pk: BJJ, token: TokenID): Snapshot {
    var found := LookupIdx(s, addr, pk, token);
    if found.Ok? && i >= found.value then s
    else s.(byAddrBjj := s.byAddrBjj[(addr, pk, token) := i], byAddr := s.byAddr[(addr, token) := i])
  }

  // CreateAccount of the state database: the leaf, then the address entries.
  function CreateAccount(s: Snapshot, i: Idx, a: Account): Write {
    var w := CreateLeaf(s, i, a);
    if w.Failed? then w else Done(PutIdx(w.s, i, a.ethAddr, a.bjj, a.tokenID))
  }

  lemma PutIdxRefines(s: Snapshot, i: Idx, a: Account, led: Ledger)
    requires Consistent(s) && LedgerOf(s) == led
    ensures var s' := PutIdx(s, i, a.ethAddr, a.bjj, a.tokenID);
      && Consistent(s') && s'.currentIdx == s.currentIdx && s'.currentBatch == s.currentBatch
      && LedgerOf(s') == led.Register(i, a.ethAddr, a.bjj, a.tokenID)
  {
    var s' := PutIdx(s, i, a.ethAddr, a.bjj, a.tokenID);
    SameAccounts(s, s');
  }

  lemma CreateAccountRefines(s: Snapshot, i: Idx, a: Account)
    requires Consistent(s)
    ensures CreateAccount(s, i, a).Done? <==> LedgerOf(s).Create(i, a).Ok?
    ensures CreateAccount(s, i, a).Done? ==>
      && Consistent(CreateAccount(s, i, a).s)
      && LedgerOf(CreateAccount(s, i, a).s) == LedgerOf(s).Create(i, a).value
  {
    CreateRefines(s, i, a);
    if CreateAccount(s, i, a).Done? {
      var s1 := CreateLeaf(s, i, a).s;
      PutIdxRefines(s1, i, a, LedgerOf(s).(accounts := AccountsOf(s)[i := Canon(a)]));
    }
  }

  lemma SameLeaves(s: Snapshot, s': Snapshot)
    requires Consistent(s)
    requires s'.idxs == s.idxs && s'.leaves == s.leaves && s'.tree == s.tree
    ensures Consistent(s')
  {
    forall d | d in s'.leaves
      ensures LeafOK(s', d)
    {
      assert LeafOK(s, d);
    }
  }

  lemma SameAccounts(s: Snapshot, s': Snapshot)
    requires Consistent(s)
    requires s'.idxs == s.idxs && s'.leaves == s.leaves && s'.tree == s.tree
    ensures Consistent(s') && AccountsOf(s') == AccountsOf(s)
  {
    SameLeaves(s, s');
    forall i | i in s.idxs
      ensures LeafAt(s', i) == LeafAt(s, i)
    {
      LeafOfBytes(s, s', i);
    }
  }

  lemma UpdateAccountRefines(s: Snapshot, i: Idx, a: Account)
    requires Consistent(s)
    ensures UpdateLeaf(s, i, a).Done? <==> LedgerOf(s).Update(i, a).Ok?
    ensures UpdateLeaf(s, i, a).Done? ==>
      && Consistent(UpdateLeaf(s, i, a).s)
      && LedgerOf(UpdateLeaf(s, i, a).s) == LedgerOf(s).Update(i, a).value
  {
    UpdateRefines(s, i, a);
  }

  // ---- the tree ----

  ghost function TreeOf(accounts: map<Idx, Account>): map<Idx, Digest> {
    map i | i in accounts :: HashValue(Layout(accounts[i]))
  }

  // The state root that belongs to a table of accounts.
  ghost function AccountsRoot(accounts: map<Idx, Account>): Root {
    RootOf(TreeOf(accounts))
  }

  lemma LeafDigest(s: Snapshot, i: Idx)
    requires Consistent(s) && i in s.idxs
    ensures s.idxs[i] == HashValue(Layout(LeafAt(s, i)))
  {
    assert LeafOK(s, s.idxs[i]);
  }

  // The root of the tree is a function of the accounts alone.
  lemma TreeIsOfAccounts(s: Snapshot)
    requires Consistent(s)
    ensures s.tree == TreeOf(AccountsOf(s))
  {
    forall i | i in s.idxs
      ensures s.idxs[i] == HashValue(Layout(LeafAt(s, i)))
    {
      LeafDigest(s, i);
    }
  }
}
