// What the numbered checkpoints, the working storage and the "last" view do to each other, as pure
// functions on values.
module Checkpoints {
  import opened Types
  import opened Stores

  // keep is the number of checkpoints to retain, 0 for all of them.
  datatype KVConfig = KVConfig(keep: nat, noGapsCheck: bool, noLast: bool)

  // No db means that the working storage is closed.
  datatype KV = KV(
    db: Option<Snapshot>,
    currentIdx: Idx,
    currentBatch: nat,
    checkpoints: map<nat, Snapshot>,
    last: Option<Snapshot>)

  // ---- listing ----

  ghost predicate Gapless(keys: set<nat>) {
    forall a, b, c :: a in keys && c in keys && a <= b <= c ==> b in keys
  }

  ghost predicate Ascending(list: seq<nat>) {
    forall i, j :: 0 <= i < j < |list| ==> list[i] < list[j]
  }

  ghost predicate Lists(list: seq<nat>, keys: set<nat>) {
    Ascending(list) && forall b :: b in list <==> b in keys
  }

  // No step of the list skips a number.
  ghost predicate NoGapBefore(list: seq<nat>, n: nat)
    requires n <= |list|
  {
    forall i :: 0 < i < n ==> list[i] == list[i - 1] + 1
  }

  lemma {:induction false} StepsAdd(list: seq<nat>, i: nat)
    requires i < |list| && NoGapBefore(list, |list|)
    ensures list[i] == list[0] + i
  {
    if i > 0 {
      StepsAdd(list, i - 1);
    }
  }

  // Comparing neighbours finds every gap.
  lemma GapScan(list: seq<nat>, keys: set<nat>)
    requires Lists(list, keys)
    ensures NoGapBefore(list, |list|) <==> Gapless(keys)
  {
    if NoGapBefore(list, |list|) {
      forall a, b, c | a in keys && c in keys && a <= b <= c
        ensures b in keys
      {
        var i :| 0 <= i < |list| && list[i] == a;
        var j :| 0 <= j < |list| && list[j] == c;
        StepsAdd(list, i);
        StepsAdd(list, j);
        StepsAdd(list, b - list[0]);
      }
    }
    if Gapless(keys) {
      forall i | 0 < i < |list|
        ensures list[i] == list[i - 1] + 1
      {
        assert list[i - 1] in keys && list[i] in keys;
        assert list[i - 1] + 1 in list;
      }
    }
  }

  // ---- pruning ----

  ghost function Above(keys: set<nat>, n: nat): set<nat> {
    set m | m in keys && m > n
  }

  // The checkpoints with fewer than keep later ones.
  ghost function Newest(keys: set<nat>, keep: nat): set<nat> {
    set n | n in keys && |Above(keys, n)| < keep
  }

  // In a sorted list, the entry at i has exactly the rest of the list above it.
  lemma {:induction false} AboveCounts(list: seq<nat>, keys: set<nat>, i: nat)
    requires Lists(list, keys) && i < |list|
    ensures |Above(keys, list[i])| == |list| - 1 - i
    decreases |list| - i
  {
    if i == |list| - 1 {
      assert Above(keys, list[i]) == {};
    } else {
      AboveCounts(list, keys, i + 1);
      AboveNext(list, keys, i);
      OneMore(Above(keys, list[i + 1]), list[i + 1]);
    }
  }

  lemma AboveNext(list: seq<nat>, keys: set<nat>, i: nat)
    requires Lists(list, keys) && i + 1 < |list|
    ensures Above(keys, list[i]) == Above(keys, list[i + 1]) + {list[i + 1]}
  {
    assert list[i + 1] in list;
    forall m
      ensures m in Above(keys, list[i]) <==> m in Above(keys, list[i + 1]) + {list[i + 1]}
    {
      if m in Above(keys, list[i]) {
        var j :| 0 <= j < |list| && list[j] == m;
        assert j > i;
      }
    }
  }

  lemma OneMore(s: set<nat>, n: nat)
    requires n !in s
    ensures |s + {n}| == |s| + 1
  {
  }

  // Dropping the first |list| - keep entries leaves exactly the newest keep.
  lemma TailIsNewest(list: seq<nat>, keys: set<nat>, keep: nat)
    requires Lists(list, keys)
    ensures var cut := if |list| > keep then |list| - keep else 0;
      Newest(keys, keep) == keys - (set b | b in list[..cut])
  {
    var cut := if |list| > keep then |list| - keep else 0;
    forall b | b in keys
      ensures b in Newest(keys, keep) <==> b !in list[..cut]
    {
      var i :| 0 <= i < |list| && list[i] == b;
      AboveCounts(list, keys, i);
      assert b in list[..cut] <==> i < cut;
    }
  }

  ghost function Restrict(checkpoints: map<nat, Snapshot>, keys: set<nat>): map<nat, Snapshot> {
    map b | b in checkpoints && b in keys :: checkpoints[b]
  }

  ghost function UpTo(keys: set<nat>, b: nat): set<nat> {
    set n | n in keys && n <= b
  }

  // ---- the operations ----

  // Listing fails when there is a gap and gaps are checked.
  ghost predicate Listable(cfg: KVConfig, k: KV) {
    cfg.noGapsCheck || Gapless(k.checkpoints.Keys)
  }

  // DeleteOldCheckpoints
  ghost function Prune(cfg: KVConfig, k: KV): KV {
    if cfg.keep > 0 && Listable(cfg, k) then
      k.(checkpoints := Restrict(k.checkpoints, Newest(k.checkpoints.Keys, cfg.keep)))
    else k
  }

  // MakeCheckpoint, up to the pruning that it leaves to the background.
  ghost function Checkpoint(cfg: KVConfig, k: KV): KV
    requires k.db.Some?
  {
    var b := k.currentBatch + 1;
    var s := k.db.value.(currentBatch := Some(b));
    KV(Some(s), k.currentIdx, b, k.checkpoints[b := s], if cfg.noLast then k.last else Some(s))
  }

  // reset: it stops at the first error, with the working storage closed.
  ghost function Reset(cfg: KVConfig, k: KV, b: nat): (Option<Error>, KV) {
    var k1 := k.(db := None);
    if !Listable(cfg, k) then (Some(CheckpointGap), k1)
    else
      var k2 := k1.(checkpoints := Restrict(k.checkpoints, UpTo(k.checkpoints.Keys, b)));
      if b == 0 then (None, Loaded(cfg, k2, EMPTY_SNAPSHOT))
      else if b !in k.checkpoints then (Some(NoCheckpoint), k2)
      else (None, Loaded(cfg, k2, k.checkpoints[b]))
  }

  // Everything in memory is read back from the storage just opened.
  ghost function Loaded(cfg: KVConfig, k: KV, s: Snapshot): KV {
    KV(Some(s), StoredIdx(s), StoredBatch(s), k.checkpoints, if cfg.noLast then k.last else Some(s))
  }

  // ResetFromSynchronizer: the "last" view stays as it is.
  ghost function ResetFrom(cfg: KVConfig, k: KV, from: map<nat, Snapshot>, b: nat): (Option<Error>, KV) {
    var k1 := k.(db := None);
    if !Listable(cfg, k) then (Some(CheckpointGap), k1)
    else
      var k2 := k1.(checkpoints := map[]);
      if b == 0 then (None, KV(Some(EMPTY_SNAPSHOT), RESERVED_IDX, 0, map[], k.last))
      else if b !in from then (Some(NoCheckpoint), k2)
      else (None, KV(Some(from[b]), StoredIdx(from[b]), StoredBatch(from[b]), map[b := from[b]], k.last))
  }

  // ---- what the operations keep ----

  // What the "last" view should show: the checkpoint of the current batch, empty at 0.
  ghost predicate LastIsCurrent(cfg: KVConfig, k: KV) {
    && (k.currentBatch > 0 ==> k.currentBatch in k.checkpoints)
    && (!cfg.noLast ==>
          k.last == Some(if k.currentBatch == 0 then EMPTY_SNAPSHOT else k.checkpoints[k.currentBatch]))
  }

  // The checkpoints form a gap-free run of positive numbers that ends at the current batch, and
  // checkpoint n stores batch number n.
  ghost predicate Numbered(k: KV) {
    && Gapless(k.checkpoints.Keys)
    && (forall n :: n in k.checkpoints ==>
          0 < n <= k.currentBatch && k.checkpoints[n].currentBatch == Some(n))
  }

  // The stored index and batch number agree with those in memory.
  ghost predicate InMemory(k: KV) {
    && k.db.Some?
    && StoredIdx(k.db.value) == k.currentIdx && StoredBatch(k.db.value) == k.currentBatch
  }

  ghost predicate Sound(cfg: KVConfig, k: KV) {
    LastIsCurrent(cfg, k) && Numbered(k) && InMemory(k)
  }

  // A batch was processed and checkpointed.
  ghost predicate Advanced(cfg: KVConfig, k: KV, k': KV) {
    && k'.db.Some? && k'.currentBatch == k.currentBatch + 1
    && k'.db.value.currentBatch == Some(k'.currentBatch) && StoredIdx(k'.db.value) == k'.currentIdx
    && k'.checkpoints == k.checkpoints[k'.currentBatch := k'.db.value]
    && k'.last == (if cfg.noLast then k.last else k'.db)
  }

  // Nothing on disk has changed, and the "last" view has not either.
  ghost predicate Stalled(k: KV, k': KV) {
    k'.currentBatch == k.currentBatch && k'.checkpoints == k.checkpoints && k'.last == k.last
  }

  // After a checkpoint, the "last" view shows exactly what the working storage holds.
  lemma CheckpointKeepsSound(cfg: KVConfig, k: KV)
    requires Sound(cfg, k)
    ensures var k' := Checkpoint(cfg, k);
      && Sound(cfg, k') && k'.currentBatch == k.currentBatch + 1 && k'.currentIdx == k.currentIdx
      && k'.db.value == k.db.value.(currentBatch := Some(k.currentBatch + 1))
      && k'.checkpoints[k'.currentBatch] == k'.db.value
      && (!cfg.noLast ==> k'.last == k'.db)
      && forall n :: n in k.checkpoints ==> n in k'.checkpoints && k'.checkpoints[n] == k.checkpoints[n]
  {
  }

  lemma {:induction false} NewestOfRun(keys: set<nat>, top: nat, keep: nat, n: nat)
    requires Gapless(keys) && top in keys && (forall m :: m in keys ==> m <= top) && n in keys
    ensures |Above(keys, n)| == top - n
    decreases top - n
  {
    if n == top {
      assert Above(keys, n) == {};
    } else {
      assert n + 1 in keys;
      NewestOfRun(keys, top, keep, n + 1);
      assert Above(keys, n) == Above(keys, n + 1) + {n + 1};
    }
  }

  // Pruning keeps the state sound, loses none of the newest keep, and touches nothing else.
  lemma PruneKeepsSound(cfg: KVConfig, k: KV)
    requires Sound(cfg, k)
    ensures var k' := Prune(cfg, k);
      && Sound(cfg, k') && k' == k.(checkpoints := k'.checkpoints)
      && (forall n :: n in k'.checkpoints <==>
            n in k.checkpoints && (cfg.keep == 0 || n + cfg.keep > k.currentBatch))
      && (forall n :: n in k'.checkpoints ==> k'.checkpoints[n] == k.checkpoints[n])
  {
    forall n | n in k.checkpoints
      ensures |Above(k.checkpoints.Keys, n)| == k.currentBatch - n
    {
      NewestOfRun(k.checkpoints.Keys, k.currentBatch, cfg.keep, n);
    }
  }

  // A reset to a retained batch, or to 0, succeeds and reads everything back from that checkpoint:
  // nothing of what was in memory, in the working storage or in later checkpoints is left.
  lemma ResetRestores(cfg: KVConfig, k: KV, b: nat)
    requires Numbered(k)
    ensures Reset(cfg, k, b).0.None? <==> b == 0 || b in k.checkpoints
    ensures Reset(cfg, k, b).0.None? ==>
      var k' := Reset(cfg, k, b).1;
      var s := if b == 0 then EMPTY_SNAPSHOT else k.checkpoints[b];
      && Sound(cfg, k') && k'.currentBatch == b && k'.db == Some(s) && k'.currentIdx == StoredIdx(s)
      && k'.checkpoints == Restrict(k.checkpoints, UpTo(k.checkpoints.Keys, b))
      && (!cfg.noLast ==> k'.last == Some(s))
    ensures Reset(cfg, k, b).0.Some? ==>
      var k' := Reset(cfg, k, b).1; k'.db.None? && forall n :: n in k'.checkpoints ==> n < b
  {
  }

  // A local database taken over from a sound one is sound as well, and equal to the other's
  // checkpoint, if it has no "last" view; otherwise only if that view happens to show the batch.
  lemma TakeoverIsSound(cfg: KVConfig, k: KV, from: KV, b: nat)
    requires Listable(cfg, k) && Numbered(from) && (cfg.noLast ==> k.last == None)
    ensures var (e, k') := ResetFrom(cfg, k, from.checkpoints, b);
      && (e.None? <==> b == 0 || b in from.checkpoints)
      && (e.None? ==>
            var s := if b == 0 then EMPTY_SNAPSHOT else from.checkpoints[b];
            && k'.db == Some(s) && k'.currentBatch == b && k'.currentIdx == StoredIdx(s)
            && (Idle(cfg, k') <==> cfg.noLast || k.last == Some(s)))
  {
  }

  // Between batches the working storage is the checkpoint of the current batch.
  ghost predicate Idle(cfg: KVConfig, k: KV) {
    && Sound(cfg, k)
    && k.db == Some(if k.currentBatch == 0 then EMPTY_SNAPSHOT else k.checkpoints[k.currentBatch])
  }

  // Whatever was written since, a reset to the current batch undoes it exactly.
  lemma RollbackUndoesWrites(cfg: KVConfig, k: KV, k': KV)
    requires Idle(cfg, k) && Numbered(k') && k'.checkpoints == k.checkpoints
    requires k'.currentBatch == k.currentBatch && k'.last == k.last
    ensures Reset(cfg, k', k.currentBatch) == (None, k)
  {
    var b := k.currentBatch;
    assert Restrict(k.checkpoints, UpTo(k.checkpoints.Keys, b)) == k.checkpoints;
  }

  // A reset brings back the idle state of a batch from any later state that still has its checkpoint.
  lemma BackFrom(cfg: KVConfig, k: KV, later: KV)
    requires Idle(cfg, k) && Numbered(later)
    requires forall n :: n in later.checkpoints && n <= k.currentBatch ==>
      n in k.checkpoints && later.checkpoints[n] == k.checkpoints[n]
    requires cfg.noLast ==> later.last == k.last
    ensures var (e, back) := Reset(cfg, later, k.currentBatch);
      && (e.None? <==> k.currentBatch == 0 || k.currentBatch in later.checkpoints)
      && (e.None? ==> back == k.(checkpoints := back.checkpoints) && Idle(cfg, back))
      && (forall n :: n in back.checkpoints <==> n in later.checkpoints && n <= k.currentBatch)
  {
    ResetRestores(cfg, later, k.currentBatch);
  }

  // Even after the next checkpoint was taken, and pruned or not, a reset to the batch before undoes
  // it: the working storage, the index, the batch number and the "last" view are as they were. Only
  // a store told to keep a single checkpoint cannot go back once it has been pruned.
  lemma RollbackAfterCheckpoint(cfg: KVConfig, k: KV, k1: KV, pruned: bool)
    requires Idle(cfg, k) && Sound(cfg, k1) && k1.checkpoints == k.checkpoints
    requires k1.currentBatch == k.currentBatch && k1.last == k.last
    ensures var k2 := Checkpoint(cfg, k1);
      var k3 := if pruned then Prune(cfg, k2) else k2;
      var (e, k4) := Reset(cfg, k3, k.currentBatch);
      && (e.None? <==> !pruned || cfg.keep != 1 || k.currentBatch == 0)
      && (e.None? ==> k4 == k.(checkpoints := k4.checkpoints) && Idle(cfg, k4))
      && (e.None? && !pruned ==> k4 == k)
      && (e.Some? ==> k4.db.None? && k4.checkpoints == map[])
  {
    var b := k.currentBatch;
    CheckpointKeepsSound(cfg, k1);
    var k2 := Checkpoint(cfg, k1);
    if pruned {
      PruneKeepsSound(cfg, k2);
      BackFrom(cfg, k, Prune(cfg, k2));
      var (e, k4) := Reset(cfg, Prune(cfg, k2), b);
      if e.Some? {
        assert forall n :: n in k4.checkpoints ==> n > b;
        assert k4.checkpoints.Keys == {};
      }
    } else {
      BackFrom(cfg, k, k2);
      assert Reset(cfg, k2, b).1.checkpoints == k.checkpoints;
    }
  }

  // ---- giving a batch up ----

  // A reset to the batch of k, from a later state, brings k back; earlier checkpoints may be missing.
  ghost predicate Returns(cfg: KVConfig, k: KV, later: KV) {
    var (e, back) := Reset(cfg, later, k.currentBatch);
    && e.None? && back == k.(checkpoints := back.checkpoints) && Idle(cfg, back)
    && forall n :: n in back.checkpoints ==> n in k.checkpoints && back.checkpoints[n] == k.checkpoints[n]
  }

  // From a run that failed, always.
  lemma StalledReturns(cfg: KVConfig, k: KV, k1: KV)
    requires Idle(cfg, k) && Stalled(k, k1)
    ensures Returns(cfg, k, k1)
  {
    RollbackUndoesWrites(cfg, k, k1);
  }

  // A second reset changes nothing.
  lemma ReturnedReturns(cfg: KVConfig, k: KV, later: KV)
    requires Returns(cfg, k, later)
    ensures Returns(cfg, k, Reset(cfg, later, k.currentBatch).1)
  {
    var back := Reset(cfg, later, k.currentBatch).1;
    RollbackUndoesWrites(cfg, back, back);
  }

  // A processed batch leaves the store idle again, pruned or not.
  lemma AdvancedIsIdle(cfg: KVConfig, k: KV, k1: KV)
    requires Idle(cfg, k) && Advanced(cfg, k, k1)
    ensures Idle(cfg, k1) && Idle(cfg, Prune(cfg, k1))
    ensures Prune(cfg, k1) == k1.(checkpoints := Prune(cfg, k1).checkpoints)
  {
    PruneKeepsSound(cfg, k1);
  }

  // What was in the working storage just before the checkpoint was taken.
  lemma BeforeCheckpoint(cfg: KVConfig, k: KV, k1: KV) returns (written: KV)
    requires Idle(cfg, k) && Advanced(cfg, k, k1)
    ensures Sound(cfg, written) && Checkpoint(cfg, written) == k1
    ensures written.checkpoints == k.checkpoints && written.currentBatch == k.currentBatch && written.last == k.last
  {
    var s := k1.db.value.(currentBatch := k.db.value.currentBatch);
    written := KV(Some(s), k1.currentIdx, k.currentBatch, k.checkpoints, k.last);
  }

  // From the batch after, unless the store retains a single checkpoint and was pruned to it.
  lemma AdvancedReturns(cfg: KVConfig, k: KV, k1: KV, pruned: bool)
    requires Idle(cfg, k) && Advanced(cfg, k, k1)
    ensures var k2 := if pruned then Prune(cfg, k1) else k1;
      && (Returns(cfg, k, k2) <==> !pruned || cfg.keep != 1 || k.currentBatch == 0)
      && (!Returns(cfg, k, k2) ==> Reset(cfg, k2, k.currentBatch).0.Some? && Reset(cfg, k2, k.currentBatch).1.db.None?)
  {
    hide Idle, Sound, Advanced;
    var written := BeforeCheckpoint(cfg, k, k1);
    hide Checkpoint;
    RollbackAfterCheckpoint(cfg, k, written, pruned);
    KeptCheckpoints(cfg, k, k1, pruned);
  }

  lemma KeptCheckpoints(cfg: KVConfig, k: KV, k1: KV, pruned: bool)
    requires Idle(cfg, k) && Advanced(cfg, k, k1)
    ensures var back := Reset(cfg, if pruned then Prune(cfg, k1) else k1, k.currentBatch).1;
      forall n :: n in back.checkpoints ==> n in k.checkpoints && back.checkpoints[n] == k.checkpoints[n]
  {
    if pruned {
      AdvancedIsIdle(cfg, k, k1);
      PruneKeepsSound(cfg, k1);
    }
  }
}
