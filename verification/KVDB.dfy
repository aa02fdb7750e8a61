// The key-value database object: the working storage, the numbered checkpoints on disk, and the
// "last" view. Its methods do what Checkpoints.dfy says.
module KVDBs {
  import opened Types
  import opened Stores
  import opened Checkpoints

  // An open storage. Whoever holds the object sees every write made through it.
  class Storage {
    var s: Snapshot

    constructor (s: Snapshot)
      ensures this.s == s
    {
      this.s := s;
    }
  }

  // Insert a number into a sorted list.
  function Insert(list: seq<nat>, b: nat): (r: seq<nat>)
    requires Ascending(list) && b !in list
    ensures Ascending(r) && |r| == |list| + 1
    ensures forall n :: n in r <==> n in list || n == b
  {
    if list == [] || b < list[0] then [b] + list
    else
      TailAscends(list);
      var rest := Insert(list[1..], b);
      PutInFront(list, rest, b);
      [list[0]] + rest
  }

  lemma TailAscends(list: seq<nat>)
    requires Ascending(list) && list != []
    ensures Ascending(list[1..]) && list == [list[0]] + list[1..]
    ensures forall n :: n in list <==> n == list[0] || n in list[1..]
  {
  }

  lemma PutInFront(list: seq<nat>, rest: seq<nat>, b: nat)
    requires Ascending(list) && list != [] && b > list[0] && Ascending(rest)
    requires forall n :: n in rest <==> n in list[1..] || n == b
    ensures Ascending([list[0]] + rest)
  {
    forall i | 0 <= i < |rest|
      ensures rest[i] > list[0]
    {
      assert rest[i] in rest;
    }
  }

  class KVDB {
    const cfg: KVConfig
    var db: Storage?
    var currentIdx: Idx
    var currentBatch: nat
    var checkpoints: map<nat, Snapshot>
    var last: Storage?

    ghost predicate Valid()
      reads this
    {
      (db != null ==> db != last) && (cfg.noLast ==> last == null)
    }

    ghost function State(): KV
      reads this, db, last
    {
      KV(if db == null then None else Some(db.s), currentIdx, currentBatch, checkpoints,
         if last == null then None else Some(last.s))
    }

    // A directory as it is found on disk, before the reset that NewKVDB does.
    constructor Found(cfg: KVConfig, current: Snapshot, checkpoints: map<nat, Snapshot>)
      ensures Valid() && this.cfg == cfg && fresh(db)
      ensures State() == KV(Some(current), 0, StoredBatch(current), checkpoints, None)
    {
      this.cfg := cfg;
      this.currentIdx := 0;
      this.currentBatch := StoredBatch(current);
      this.checkpoints := checkpoints;
      this.db := new Storage(current);
      this.last := null;
    }

    // NewKVDB: only the batch number of what was left in 'current' counts; everything is read back
    // from the checkpoint of that batch.
    static method NewKVDB(cfg: KVConfig, current: Snapshot, checkpoints: map<nat, Snapshot>)
      returns (r: Result<KVDB>)
      ensures var found := KV(Some(current), 0, StoredBatch(current), checkpoints, None);
        var (e, k) := Checkpoints.Reset(cfg, found, StoredBatch(current));
        && (r.Ok? <==> e.None?)
        && (r.Ok? ==> fresh(r.value) && r.value.Valid() && r.value.cfg == cfg && r.value.State() == k)
      ensures r.Ok? && r.value.db != null ==> fresh(r.value.db)
      ensures r.Ok? && r.value.last != null ==> fresh(r.value.last)
    {
      var k := new KVDB.Found(cfg, current, checkpoints);
      var e := k.Reset(k.currentBatch);
      if e.Some? {
        return Err(e.value);
      }
      r := Ok(k);
    }

    // ListCheckpoints: the directory is read in any order, the numbers are sorted, and neighbours
    // are compared.
    method ListCheckpoints() returns (r: Result<seq<nat>>)
      ensures r.Ok? <==> cfg.noGapsCheck || Gapless(checkpoints.Keys)
      ensures r.Err? ==> r.error == CheckpointGap
      ensures r.Ok? ==> Lists(r.value, checkpoints.Keys)
    {
      var files := checkpoints.Keys;
      var list: seq<nat> := [];
      while files != {}
        invariant files <= checkpoints.Keys && Ascending(list)
        invariant forall b :: b in list <==> b in checkpoints && b !in files
      {
        var b :| b in files;
        files := files - {b};
        list := Insert(list, b);
      }
      GapScan(list, checkpoints.Keys);
      if !cfg.noGapsCheck && |list| > 0 {
        var first := list[0];
        for i := 1 to |list|
          invariant NoGapBefore(list, i) && first == list[i - 1]
        {
          first := first + 1;
          if list[i] != first {
            return Err(CheckpointGap);
          }
        }
      }
      r := Ok(list);
    }

    method DeleteCheckpoint(b: nat) returns (e: Option<Error>)
      modifies this`checkpoints
      ensures e.None? <==> b in old(checkpoints)
      ensures checkpoints == old(checkpoints) - {b}
    {
      if b !in checkpoints {
        return Some(NoCheckpoint);
      }
      checkpoints := checkpoints - {b};
      e := None;
    }

    // The deletion loops: every listed checkpoint is there, so none of the deletions fails.
    method DeleteAll(list: seq<nat>) returns (e: Option<Error>)
      requires Ascending(list) && forall b :: b in list ==> b in checkpoints
      modifies this`checkpoints
      ensures e.None? && checkpoints == old(checkpoints) - (set b | b in list)
    {
      for i := 0 to |list|
        invariant checkpoints == old(checkpoints) - (set b | b in list[..i])
      {
        assert list[i] !in list[..i];
        e := DeleteCheckpoint(list[i]);
        if e.Some? {
          return;
        }
        assert list[..i + 1] == list[..i] + [list[i]];
      }
      assert list[..|list|] == list;
      e := None;
    }

    // DeleteOldCheckpoints
    method DeleteOldCheckpoints() returns (e: Option<Error>)
      requires Valid()
      modifies this`checkpoints
      ensures Valid() && State() == Prune(cfg, old(State()))
      ensures e.None? <==> Listable(cfg, old(State()))
    {
      var list := ListCheckpoints();
      if list.Err? {
        return Some(list.error);
      }
      if cfg.keep > 0 {
        TailIsNewest(list.value, checkpoints.Keys, cfg.keep);
        if |list.value| > cfg.keep {
          e := DeleteAll(list.value[..|list.value| - cfg.keep]);
          if e.Some? {
            return;
          }
        }
        assert checkpoints == Restrict(old(checkpoints), Newest(old(checkpoints).Keys, cfg.keep));
      }
      e := None;
    }

    method GetCurrentBatch() returns (b: nat)
      requires db != null
      ensures b == StoredBatch(db.s)
    {
      b := StoredBatch(db.s);
    }

    method GetCurrentIdx() returns (i: Idx)
      requires db != null
      ensures i == StoredIdx(db.s)
    {
      i := StoredIdx(db.s);
    }

    // SetCurrentIdx: the index in memory changes even when storing it fails.
    method SetCurrentIdx(i: Idx) returns (e: Option<Error>)
      requires Valid() && db != null
      modifies this`currentIdx, db
      ensures Valid() && currentIdx == i
      ensures e.None? <==> i <= MAX_IDX
      ensures e.None? ==> db.s == old(db.s).(currentIdx := Some(i))
      ensures e.Some? ==> db.s == old(db.s)
    {
      currentIdx := i;
      if i > MAX_IDX {
        return Some(IdxOverflow);
      }
      db.s := db.s.(currentIdx := Some(i));
      e := None;
    }

    // MakeCheckpointFromTo: an independent copy of a checkpoint.
    method CopyCheckpoint(b: nat) returns (r: Result<Storage>)
      ensures r.Ok? <==> b in checkpoints
      ensures r.Err? ==> r.error == NoCheckpoint
      ensures r.Ok? ==> fresh(r.value) && r.value.s == checkpoints[b]
    {
      if b !in checkpoints {
        return Err(NoCheckpoint);
      }
      var copy := new Storage(checkpoints[b]);
      r := Ok(copy);
    }

    // Last.set: the view is an independent copy too.
    method SetLast(b: nat) returns (e: Option<Error>)
      requires !cfg.noLast
      modifies this`last
      ensures e.None? <==> b in checkpoints
      ensures e.None? ==> fresh(last) && last.s == checkpoints[b]
      ensures e.Some? ==> last == old(last)
    {
      var copy := CopyCheckpoint(b);
      if copy.Err? {
        return Some(copy.error);
      }
      last := copy.value;
      e := None;
    }

    // MakeCheckpoint: advance and store the batch number, replace the checkpoint of that number,
    // and renew the "last" view from it. The pruning it starts is DeleteOldCheckpoints.
    method MakeCheckpoint() returns (e: Option<Error>)
      requires Valid() && db != null
      modifies this, db
      ensures e.None? && Valid() && db == old(db) && (last != old(last) ==> fresh(last))
      ensures State() == Checkpoint(cfg, old(State()))
    {
      currentBatch := currentBatch + 1;
      db.s := db.s.(currentBatch := Some(currentBatch));
      if currentBatch in checkpoints {
        checkpoints := checkpoints - {currentBatch};
      }
      checkpoints := checkpoints[currentBatch := db.s];
      assert checkpoints == old(checkpoints)[currentBatch := db.s];
      if !cfg.noLast {
        e := SetLast(currentBatch);
      } else {
        e := None;
      }
    }

    // The deletion of every checkpoint after b, if the directory can be listed.
    method DeleteAfter(b: nat) returns (e: Option<Error>)
      modifies this`checkpoints
      ensures e == if Listable(cfg, old(State())) then None else Some(CheckpointGap)
      ensures checkpoints
        == if e.Some? then old(checkpoints) else Restrict(old(checkpoints), UpTo(old(checkpoints).Keys, b))
    {
      var list := ListCheckpoints();
      if list.Err? {
        return Some(list.error);
      }
      var start := 0;
      while start < |list.value| && list.value[start] <= b
        invariant 0 <= start <= |list.value|
        invariant forall i :: 0 <= i < start ==> list.value[i] <= b
      {
        start := start + 1;
      }
      e := DeleteAll(list.value[start..]);
      assert forall n :: n in list.value[start..] <==> n in old(checkpoints) && n > b;
      assert checkpoints == Restrict(old(checkpoints), UpTo(old(checkpoints).Keys, b));
    }

    // reset: close and remove the working storage, delete all later checkpoints, then open a copy
    // of the wanted one.
    method Reset(b: nat) returns (e: Option<Error>)
      requires Valid()
      modifies this
      ensures Valid()
      ensures db != null ==> fresh(db)
      ensures last != old(last) ==> fresh(last)
      ensures (e, State()) == Checkpoints.Reset(cfg, old(State()), b)
    {
      db := null;
      e := DeleteAfter(b);
      if e.Some? {
        return;
      }
      e := Load(b);
    }

    method Load(b: nat) returns (e: Option<Error>)
      requires Valid() && db == null
      modifies this
      ensures Valid() && checkpoints == old(checkpoints)
      ensures db != null ==> fresh(db)
      ensures last != old(last) ==> fresh(last)
      ensures b != 0 && b !in checkpoints ==> e == Some(NoCheckpoint) && State() == old(State())
      ensures b == 0 || b in checkpoints ==>
        e.None? && State() == Loaded(cfg, old(State()), if b == 0 then EMPTY_SNAPSHOT else checkpoints[b])
    {
      if b == 0 {
        db := new Storage(EMPTY_SNAPSHOT);
        currentIdx := RESERVED_IDX;
        currentBatch := 0;
        if !cfg.noLast {
          last := new Storage(EMPTY_SNAPSHOT);
        }
        return None;
      }
      var current := CopyCheckpoint(b);
      if current.Err? {
        return Some(current.error);
      }
      if !cfg.noLast {
        e := SetLast(b);
        if e.Some? {
          return;
        }
      }
      db := current.value;
      currentBatch := GetCurrentBatch();
      currentIdx := GetCurrentIdx();
      e := None;
    }

    // ResetFromSynchronizer: everything is thrown away and one checkpoint is taken over from the
    // synchronizer's database. The "last" view is not renewed.
    method ResetFromSynchronizer(b: nat, sync: KVDB) returns (e: Option<Error>)
      requires Valid() && sync != this
      modifies this
      ensures Valid()
      ensures db != null ==> fresh(db)
      ensures (e, State()) == ResetFrom(cfg, old(State()), sync.checkpoints, b)
    {
      db := null;
      var list := ListCheckpoints();
      if list.Err? {
        return Some(list.error);
      }
      e := DeleteAll(list.value);
      assert checkpoints == map[];
      if e.Some? {
        return;
      }
      if b == 0 {
        db := new Storage(EMPTY_SNAPSHOT);
        currentIdx := RESERVED_IDX;
        currentBatch := 0;
        return None;
      }
      var taken := sync.CopyCheckpoint(b);
      if taken.Err? {
        return Some(taken.error);
      }
      checkpoints := checkpoints[b := taken.value.s];
      db := new Storage(checkpoints[b]);
      currentBatch := GetCurrentBatch();
      currentIdx := GetCurrentIdx();
      e := None;
    }
  }
}
