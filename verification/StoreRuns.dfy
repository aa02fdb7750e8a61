// Every sequence of creates, updates, checkpoints, prunings and resets on the real store behaves as
// the same sequence on plain maps, failed operations included.
module StoreRuns {
  import opened Types
  import opened Accounts
  import opened Ledgers
  import opened Stores
  import opened Checkpoints

  datatype Op =
    | Create(i: Idx, a: Account)
    | Update(i: Idx, a: Account)
    | SetIdx(i: Idx)
    | MakeCheckpoint
    | PruneOld
    | ResetTo(b: nat)

  // ---- the store ----

  function AfterWrite(k: KV, w: Write): (bool, KV) {
    (w.Done?, k.(db := Some(w.s)))
  }

  // Whether the operation succeeds, and the store it leaves. Only a reset works on a closed store.
  ghost function Do(cfg: KVConfig, k: KV, op: Op): (bool, KV) {
    match op
    case ResetTo(b) => var (e, k') := Reset(cfg, k, b); (e.None?, k')
    case PruneOld => (true, Prune(cfg, k))
    case Create(i, a) => if k.db.None? then (false, k) else AfterWrite(k, CreateAccount(k.db.value, i, a))
    case Update(i, a) => if k.db.None? then (false, k) else AfterWrite(k, UpdateLeaf(k.db.value, i, a))
    case SetIdx(i) =>
      if k.db.None? then (false, k)
      else if i > MAX_IDX then (false, k.(currentIdx := i))
      else (true, k.(currentIdx := i, db := Some(k.db.value.(currentIdx := Some(i)))))
    case MakeCheckpoint => if k.db.None? then (false, k) else (true, Checkpoint(cfg, k))
  }

  // ---- plain maps ----

  // What can be read of a storage: a ledger, and the accounts that the tree does not have.
  datatype Content = Content(led: Ledger, lacking: set<Idx>) {
    function WithIdx(i: Idx): Content {
      this.(led := led.(currentIdx := i))
    }
  }

  const EMPTY_CONTENT := Content(EMPTY_LEDGER, {})

  // The working storage, none while it is closed; the index in memory; and what was saved per batch.
  datatype Plain = Plain(open: Option<Content>, current: Idx, batch: nat, saved: map<nat, Content>)

  function CreateIn(c: Content, i: Idx, a: Account): (bool, Content) {
    var r := c.led.Create(i, a);
    if r.Ok? then (true, c.(led := r.value)) else (false, c)
  }

  // An account that fits is stored even where there was none; the tree is updated only where it has one.
  function UpdateIn(c: Content, i: Idx, a: Account): (bool, Content) {
    if !Encodable(a) || i > MAX_IDX then (false, c)
    else
      var led := c.led.(accounts := c.led.accounts[i := Canon(a)]);
      if i in c.led.accounts && i !in c.lacking then (true, Content(led, c.lacking))
      else (false, Content(led, c.lacking + {i}))
  }

  function AfterPlainWrite(p: Plain, r: (bool, Content)): (bool, Plain) {
    (r.0, p.(open := Some(r.1)))
  }

  ghost function Keep(saved: map<nat, Content>, keys: set<nat>): map<nat, Content> {
    map n | n in saved && n in keys :: saved[n]
  }

  ghost function DoPlain(cfg: KVConfig, p: Plain, op: Op): (bool, Plain) {
    match op
    case ResetTo(b) =>
      var saved := Keep(p.saved, UpTo(p.saved.Keys, b));
      if b == 0 then (true, Plain(Some(EMPTY_CONTENT), RESERVED_IDX, 0, saved))
      else if b in p.saved then (true, Plain(Some(p.saved[b]), p.saved[b].led.currentIdx, b, saved))
      else (false, Plain(None, p.current, p.batch, saved))
    case PruneOld =>
      (true, if cfg.keep > 0 then p.(saved := Keep(p.saved, Newest(p.saved.Keys, cfg.keep))) else p)
    case Create(i, a) => if p.open.None? then (false, p) else AfterPlainWrite(p, CreateIn(p.open.value, i, a))
    case Update(i, a) => if p.open.None? then (false, p) else AfterPlainWrite(p, UpdateIn(p.open.value, i, a))
    case SetIdx(i) =>
      if p.open.None? then (false, p)
      else if i > MAX_IDX then (false, p.(current := i))
      else (true, p.(current := i, open := Some(p.open.value.WithIdx(i))))
    case MakeCheckpoint =>
      if p.open.None? then (false, p)
      else (true, p.(batch := p.batch + 1, saved := p.saved[p.batch + 1 := p.open.value]))
  }

  // ---- the relation ----

  // The storage with a tree that has every account.
  function Whole(s: Snapshot): Snapshot {
    s.(tree := s.idxs)
  }

  // The storage reads as the ledger, and its tree has the stored hash of each account but the lacking.
  ghost predicate Reads(s: Snapshot, c: Content) {
    && Consistent(Whole(s)) && LedgerOf(Whole(s)) == c.led
    && c.lacking <= s.idxs.Keys && s.tree == s.idxs - c.lacking
  }

  ghost predicate SavedMatch(checkpoints: map<nat, Snapshot>, saved: map<nat, Content>) {
    && saved.Keys == checkpoints.Keys
    && forall n :: n in checkpoints ==> Reads(checkpoints[n], saved[n])
  }

  // An open store reads as the plain one, and its "last" view shows the current batch.
  ghost predicate Current(cfg: KVConfig, k: KV, c: Content) {
    && k.db.Some? && Reads(k.db.value, c)
    && StoredBatch(k.db.value) == k.currentBatch && LastIsCurrent(cfg, k)
  }

  ghost predicate Refines(cfg: KVConfig, k: KV, p: Plain) {
    && k.currentBatch == p.batch && k.currentIdx == p.current && Numbered(k) && SavedMatch(k.checkpoints, p.saved)
    && (if p.open.Some? then Current(cfg, k, p.open.value) else k.db.None?)
  }

  // Reading an account gives the one of the ledger, and the tree has exactly the hashes of the accounts
  // that it does not lack.
  lemma ReadsAre(s: Snapshot, c: Content, i: Idx)
    requires Reads(s, c)
    ensures GetLeaf(s, i) == c.led.Get(i)
    ensures i in s.tree <==> i in c.led.accounts && i !in c.lacking
    ensures i in s.tree ==> s.tree[i] == HashValue(Layout(c.led.accounts[i]))
  {
    GetRefines(Whole(s), i);
    TreeIsOfAccounts(Whole(s));
  }

  // ---- writes ----

  // Creating and updating leave the stored index and batch number alone.
  lemma WritesKeepNumbers(s: Snapshot, i: Idx, a: Account)
    ensures var w := CreateAccount(s, i, a); w.s.currentIdx == s.currentIdx && w.s.currentBatch == s.currentBatch
    ensures var w := UpdateLeaf(s, i, a); w.s.currentIdx == s.currentIdx && w.s.currentBatch == s.currentBatch
  {
  }

  // The tree lacks none that are not stored, so a create never finds its index taken in the tree alone.
  lemma CreateOfWhole(s: Snapshot, i: Idx, a: Account, lacking: set<Idx>)
    requires lacking <= s.idxs.Keys && s.tree == s.idxs - lacking
    ensures var w := CreateAccount(s, i, a);
      var w' := CreateAccount(Whole(s), i, a);
      && (w.Done? <==> w'.Done?) && (w.Failed? ==> w.s == s)
      && (w.Done? ==> w'.s == Whole(w.s) && lacking <= w.s.idxs.Keys && w.s.tree == w.s.idxs - lacking)
  {
    var w := CreateAccount(s, i, a);
    if w.Done? {
      var t := w.s.idxs - lacking;
      assert forall j :: j in w.s.tree <==> j in t;
      assert w.s.tree == t;
    }
  }

  lemma CreateReads(s: Snapshot, c: Content, i: Idx, a: Account)
    requires Reads(s, c)
    ensures var w := CreateAccount(s, i, a);
      var (ok, c') := CreateIn(c, i, a);
      (w.Done? <==> ok) && Reads(w.s, c')
  {
    hide CreateAccount, Consistent, LedgerOf;
    CreateOfWhole(s, i, a, c.lacking);
    CreateAccountRefines(Whole(s), i, a);
  }

  lemma EncodesIff(a: Account)
    ensures Encode(a).Ok? <==> Encodable(a)
  {
  }

  // What an update does to the storage, where its account fits.
  lemma UpdateOfWhole(s: Snapshot, i: Idx, a: Account, lacking: set<Idx>)
    requires lacking <= s.idxs.Keys && s.tree == s.idxs - lacking && Encode(a).Ok? && i <= MAX_IDX
    ensures var w := UpdateLeaf(s, i, a);
      var left := if i in s.tree then lacking else lacking + {i};
      && (w.Done? <==> i in s.tree) && Whole(w.s) == WriteLeaf(Whole(s), i, Encode(a).value)
      && left <= w.s.idxs.Keys && w.s.tree == w.s.idxs - left
  {
    var w := UpdateLeaf(s, i, a);
    var left := if i in s.tree then lacking else lacking + {i};
    var t := w.s.idxs - left;
    assert forall j :: j in w.s.tree <==> j in t;
    assert w.s.tree == t;
  }

  lemma UpdateReads(s: Snapshot, c: Content, i: Idx, a: Account)
    requires Reads(s, c)
    ensures var w := UpdateLeaf(s, i, a);
      var (ok, c') := UpdateIn(c, i, a);
      (w.Done? <==> ok) && Reads(w.s, c')
  {
    EncodesIff(a);
    UpdateFailsAs(s, i, a);
    if Encodable(a) && i <= MAX_IDX {
      hide UpdateLeaf, Consistent, Encodable, Encode, WriteLeaf;
      UpdateOfWhole(s, i, a, c.lacking);
      PutRefines(Whole(s), i, a);
    }
  }

  lemma ConsistentIff(s: Snapshot, c: Content)
    requires Reads(s, c)
    ensures Consistent(s) <==> c.lacking == {}
    ensures Consistent(s) ==> LedgerOf(s) == c.led
  {
    if Consistent(s) {
      assert Whole(s) == s;
      assert forall j :: j in s.idxs ==> j !in c.lacking;
    }
    if c.lacking == {} {
      assert s.idxs - c.lacking == s.idxs;
    }
  }

  // A storage can be read as a ledger with the tree of its accounts until an account that fits is
  // stored under an index that does not exist: the one write that fails and leaves something behind.
  lemma DamagedIff(s: Snapshot, led: Ledger, i: Idx, a: Account)
    requires Consistent(s) && LedgerOf(s) == led
    ensures Consistent(CreateAccount(s, i, a).s)
    ensures CreateAccount(s, i, a).Failed? ==> CreateAccount(s, i, a).s == s
    ensures Consistent(UpdateLeaf(s, i, a).s) <==> !(Encodable(a) && i <= MAX_IDX && i !in led.accounts)
    ensures UpdateLeaf(s, i, a).Failed? && Consistent(UpdateLeaf(s, i, a).s) ==> UpdateLeaf(s, i, a).s == s
  {
    var c := Content(led, {});
    assert s.idxs - {} == s.idxs && Whole(s) == s;
    CreateOfWhole(s, i, a, {});
    UpdateFailsAs(s, i, a);
    hide Consistent, LedgerOf, CreateAccount, UpdateLeaf;
    CreateReads(s, c, i, a);
    UpdateReads(s, c, i, a);
    ConsistentIff(CreateAccount(s, i, a).s, CreateIn(c, i, a).1);
    ConsistentIff(UpdateLeaf(s, i, a).s, UpdateIn(c, i, a).1);
  }

  lemma UpdateFailsAs(s: Snapshot, i: Idx, a: Account)
    ensures !Encodable(a) || i > MAX_IDX ==> UpdateLeaf(s, i, a).Failed? && UpdateLeaf(s, i, a).s == s
  {
    EncodesIff(a);
  }

  // ---- the other operations ----

  lemma SetIdxReads(s: Snapshot, c: Content, i: Idx)
    requires Reads(s, c)
    ensures Reads(s.(currentIdx := Some(i)), c.WithIdx(i))
  {
    SameAccounts(Whole(s), Whole(s.(currentIdx := Some(i))));
  }

  lemma SaveReads(s: Snapshot, c: Content, b: nat)
    requires Reads(s, c)
    ensures Reads(s.(currentBatch := Some(b)), c)
  {
    SameAccounts(Whole(s), Whole(s.(currentBatch := Some(b))));
  }

  lemma SavedGrows(checkpoints: map<nat, Snapshot>, saved: map<nat, Content>, b: nat, s: Snapshot, c: Content)
    requires SavedMatch(checkpoints, saved) && Reads(s, c)
    ensures SavedMatch(checkpoints[b := s], saved[b := c])
  {
  }

  // The facts about checkpoints do not depend on the index in memory.
  lemma Agreeing(cfg: KVConfig, k: KV)
    requires k.db.Some? && StoredBatch(k.db.value) == k.currentBatch && LastIsCurrent(cfg, k) && Numbered(k)
    ensures Sound(cfg, k.(currentIdx := StoredIdx(k.db.value)))
  {
  }

  lemma CheckpointRefines(cfg: KVConfig, k: KV, p: Plain)
    requires Refines(cfg, k, p)
    ensures var (ok, k') := Do(cfg, k, MakeCheckpoint);
      var (ok', p') := DoPlain(cfg, p, MakeCheckpoint);
      ok == ok' && Refines(cfg, k', p')
  {
    hide Reads, SavedMatch;
    if p.open.Some? {
      Agreeing(cfg, k);
      CheckpointKeepsSound(cfg, k.(currentIdx := StoredIdx(k.db.value)));
      SaveReads(k.db.value, p.open.value, k.currentBatch + 1);
      SavedGrows(k.checkpoints, p.saved, k.currentBatch + 1, Checkpoint(cfg, k).db.value, p.open.value);
    }
  }

  lemma SavedShrinks(checkpoints: map<nat, Snapshot>, saved: map<nat, Content>, keys: set<nat>)
    requires SavedMatch(checkpoints, saved)
    ensures SavedMatch(Restrict(checkpoints, keys), Keep(saved, keys))
  {
  }

  lemma PruneRefines(cfg: KVConfig, k: KV, p: Plain)
    requires Refines(cfg, k, p)
    ensures var (ok, k') := Do(cfg, k, PruneOld);
      var (ok', p') := DoPlain(cfg, p, PruneOld);
      ok == ok' && Refines(cfg, k', p')
  {
    hide Reads, SavedMatch, Newest, Restrict, Keep;
    PruneKeepsNumbered(cfg, k);
    SavedShrinks(k.checkpoints, p.saved, Newest(k.checkpoints.Keys, cfg.keep));
    assert p.saved.Keys == k.checkpoints.Keys by { SavedKeys(k.checkpoints, p.saved); }
    if p.open.Some? {
      Agreeing(cfg, k);
      PruneKeepsSound(cfg, k.(currentIdx := StoredIdx(k.db.value)));
    }
  }

  lemma SavedKeys(checkpoints: map<nat, Snapshot>, saved: map<nat, Content>)
    requires SavedMatch(checkpoints, saved)
    ensures saved.Keys == checkpoints.Keys
  {
  }

  // Also after a failed reset, when the current batch has no checkpoint any more.
  lemma PruneKeepsNumbered(cfg: KVConfig, k: KV)
    requires Numbered(k)
    ensures Numbered(Prune(cfg, k))
  {
    var k' := Prune(cfg, k);
    var keys := k.checkpoints.Keys;
    forall a, b, c | a in k'.checkpoints.Keys && c in k'.checkpoints.Keys && a <= b <= c
      ensures b in k'.checkpoints.Keys
    {
      assert a in keys && c in keys && b in keys;
      if cfg.keep > 0 {
        FewerAbove(keys, a, b);
      }
    }
  }

  lemma FewerAbove(keys: set<nat>, a: nat, b: nat)
    requires a <= b
    ensures |Above(keys, b)| <= |Above(keys, a)|
  {
    SubsetSize(Above(keys, b), Above(keys, a));
  }

  lemma {:induction false} SubsetSize(a: set<nat>, b: set<nat>)
    requires a <= b
    ensures |a| <= |b|
  {
    if a != {} {
      var n :| n in a;
      SubsetSize(a - {n}, b - {n});
    }
  }

  lemma StoredIs(s: Snapshot, c: Content)
    requires Reads(s, c)
    ensures StoredIdx(s) == c.led.currentIdx
  {
  }

  lemma EmptyReads()
    ensures Reads(EMPTY_SNAPSHOT, EMPTY_CONTENT)
  {
  }

  lemma ResetRefines(cfg: KVConfig, k: KV, p: Plain, b: nat)
    requires Refines(cfg, k, p)
    ensures var (ok, k') := Do(cfg, k, ResetTo(b));
      var (ok', p') := DoPlain(cfg, p, ResetTo(b));
      ok == ok' && Refines(cfg, k', p')
  {
    hide Reads;
    ResetRestores(cfg, k, b);
    EmptyReads();
    if b in k.checkpoints {
      StoredIs(k.checkpoints[b], p.saved[b]);
    }
  }

  lemma WriteRefines(cfg: KVConfig, k: KV, p: Plain, op: Op)
    requires Refines(cfg, k, p) && (op.Create? || op.Update?)
    ensures var (ok, k') := Do(cfg, k, op);
      var (ok', p') := DoPlain(cfg, p, op);
      ok == ok' && Refines(cfg, k', p')
  {
    hide Reads, CreateAccount, UpdateLeaf, CreateIn, UpdateIn, SavedMatch;
    if p.open.Some? {
      WritesKeepNumbers(k.db.value, op.i, op.a);
      CreateReads(k.db.value, p.open.value, op.i, op.a);
      UpdateReads(k.db.value, p.open.value, op.i, op.a);
    }
  }

  lemma SetIdxRefines(cfg: KVConfig, k: KV, p: Plain, i: Idx)
    requires Refines(cfg, k, p)
    ensures var (ok, k') := Do(cfg, k, SetIdx(i));
      var (ok', p') := DoPlain(cfg, p, SetIdx(i));
      ok == ok' && Refines(cfg, k', p')
  {
    hide Reads, SavedMatch;
    if p.open.Some? {
      SetIdxReads(k.db.value, p.open.value, i);
    }
  }

  // One operation: both succeed or both fail, and they end up related again.
  lemma OpRefines(cfg: KVConfig, k: KV, p: Plain, op: Op)
    requires Refines(cfg, k, p)
    ensures var (ok, k') := Do(cfg, k, op);
      var (ok', p') := DoPlain(cfg, p, op);
      ok == ok' && Refines(cfg, k', p')
  {
    hide Refines, Do, DoPlain;
    match op
    case ResetTo(b) => ResetRefines(cfg, k, p, b);
    case PruneOld => PruneRefines(cfg, k, p);
    case MakeCheckpoint => CheckpointRefines(cfg, k, p);
    case Create(_, _) => WriteRefines(cfg, k, p, op);
    case Update(_, _) => WriteRefines(cfg, k, p, op);
    case SetIdx(i) => SetIdxRefines(cfg, k, p, i);
  }

  // ---- every sequence ----

  ghost function DoAll(cfg: KVConfig, k: KV, ops: seq<Op>): KV {
    if ops == [] then k else Do(cfg, DoAll(cfg, k, ops[..|ops| - 1]), ops[|ops| - 1]).1
  }

  ghost function DoAllPlain(cfg: KVConfig, p: Plain, ops: seq<Op>): Plain {
    if ops == [] then p else DoPlain(cfg, DoAllPlain(cfg, p, ops[..|ops| - 1]), ops[|ops| - 1]).1
  }

  // Whatever the sequence and whatever fails in it, the store reads as the plain maps at its end: the
  // same accounts in the working storage and in every checkpoint, and trees that lack the same ones.
  lemma {:induction false} StoreRefinesPlainMaps(cfg: KVConfig, k: KV, p: Plain, ops: seq<Op>)
    requires Refines(cfg, k, p)
    ensures Refines(cfg, DoAll(cfg, k, ops), DoAllPlain(cfg, p, ops))
  {
    hide Refines, Do, DoPlain;
    if ops != [] {
      var last := |ops| - 1;
      StoreRefinesPlainMaps(cfg, k, p, ops[..last]);
      OpRefines(cfg, DoAll(cfg, k, ops[..last]), DoAllPlain(cfg, p, ops[..last]), ops[last]);
    }
  }

  // A new store is one to start from.
  lemma NewStoreRefines(cfg: KVConfig)
    ensures Refines(cfg, Loaded(cfg, KV(None, 0, 0, map[], None), EMPTY_SNAPSHOT),
                    Plain(Some(EMPTY_CONTENT), RESERVED_IDX, 0, map[]))
  {
    EmptyReads();
  }
}
