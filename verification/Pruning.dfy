// MakeCheckpoint interleaved with the pruning that earlier checkpoints left running in the background.
module Pruning {
  import opened Types
  import opened Stores
  import opened Checkpoints

  // Where MakeCheckpoint stands.
  datatype Stage = Resting | Storing | Clearing | Creating | Filling | Viewing | Spawning

  // The pruner that holds the deletion lock: about to list, or deleting what it listed.
  datatype Pruner = Listing | Deleting(list: seq<nat>)

  // An open store. A checkpoint directory that is still being filled has no contents yet; waiting
  // counts the pruners that wait for the lock.
  datatype Machine = Machine(
    db: Snapshot,
    currentBatch: nat,
    dirs: map<nat, Option<Snapshot>>,
    last: Snapshot,
    stage: Stage,
    waiting: nat,
    holder: Option<Pruner>)

  // One step of one of the threads. The scheduler chooses.
  datatype Action =
    | Write(s: Snapshot)
    | Advance
    | StoreBatch
    | Clear
    | Create
    | Fill
    | View
    | Spawn
    | Acquire
    | List(list: seq<nat>)
    | Delete

  // What a pruner deletes of the list it read.
  function Old(keep: nat, list: seq<nat>): seq<nat> {
    if keep > 0 && |list| > keep then list[..|list| - keep] else []
  }

  // The step, when it can be taken. Listing that finds a gap, or deleting a missing directory, ends
  // the pruner with an error.
  ghost function Step(cfg: KVConfig, m: Machine, a: Action): Option<Machine> {
    match a
    case Write(s) =>
      if m.stage.Resting? && s.currentBatch == m.db.currentBatch then Some(m.(db := s)) else None
    case Advance =>
      if m.stage.Resting? then Some(m.(currentBatch := m.currentBatch + 1, stage := Storing)) else None
    case StoreBatch =>
      if m.stage.Storing? then Some(m.(db := m.db.(currentBatch := Some(m.currentBatch)), stage := Clearing)) else None
    case Clear =>
      if m.stage.Clearing? then Some(m.(dirs := m.dirs - {m.currentBatch}, stage := Creating)) else None
    case Create =>
      if m.stage.Creating? then Some(m.(dirs := m.dirs[m.currentBatch := None], stage := Filling)) else None
    case Fill =>
      if m.stage.Filling? then Some(m.(dirs := m.dirs[m.currentBatch := Some(m.db)], stage := Viewing)) else None
    case View =>
      if m.stage.Viewing? && m.currentBatch in m.dirs && m.dirs[m.currentBatch].Some? then
        Some(m.(last := m.dirs[m.currentBatch].value, stage := Spawning))
      else None
    case Spawn =>
      if m.stage.Spawning? then Some(m.(waiting := m.waiting + 1, stage := Resting)) else None
    case Acquire =>
      if m.waiting > 0 && m.holder.None? then Some(m.(waiting := m.waiting - 1, holder := Some(Listing))) else None
    case List(list) =>
      if m.holder == Some(Listing) && Lists(list, m.dirs.Keys) then
        if !cfg.noGapsCheck && !Gapless(m.dirs.Keys) then Some(m.(holder := None))
        else Some(m.(holder := Some(Deleting(Old(cfg.keep, list)))))
      else None
    case Delete =>
      if m.holder.Some? && m.holder.value.Deleting? then
        var list := m.holder.value.list;
        if list == [] || list[0] !in m.dirs then Some(m.(holder := None))
        else Some(m.(dirs := m.dirs - {list[0]}, holder := Some(Deleting(list[1..]))))
      else None
  }

  // The highest directory number: the new one is there once it is created.
  function Top(m: Machine): nat {
    if m.stage.Resting? || m.stage.Filling? || m.stage.Viewing? || m.stage.Spawning? || m.currentBatch == 0
    then m.currentBatch else m.currentBatch - 1
  }

  ghost predicate Window(m: Machine) {
    && Gapless(m.dirs.Keys)
    && (forall n :: n in m.dirs ==> 0 < n <= Top(m))
    && (Top(m) > 0 ==> Top(m) in m.dirs)
  }

  // Checkpoint n stores batch n, but for the one being filled.
  ghost predicate Contents(m: Machine) {
    && (forall n :: n in m.dirs ==>
          if n == m.currentBatch && m.stage.Filling? then m.dirs[n].None?
          else m.dirs[n].Some? && m.dirs[n].value.currentBatch == Some(n))
    && (m.stage.Viewing? || m.stage.Spawning? ==>
          m.currentBatch in m.dirs && m.dirs[m.currentBatch] == Some(m.db))
  }

  // Batch numbers: in memory, in the working storage and in the "last" view.
  ghost predicate Numbers(m: Machine) {
    && (!m.stage.Resting? ==> m.currentBatch > 0)
    && StoredBatch(m.db) == (if m.stage.Storing? then m.currentBatch - 1 else m.currentBatch)
    && StoredBatch(m.last)
       == (if m.stage.Resting? || m.stage.Spawning? then m.currentBatch else m.currentBatch - 1)
  }

  // What the lock holder still has to delete are the lowest checkpoints, one after the other, and
  // none of the newest keep.
  ghost predicate Lowest(cfg: KVConfig, m: Machine, list: seq<nat>) {
    && (forall i :: 0 <= i < |list| ==> list[i] == list[0] + i && list[i] in m.dirs)
    && (forall i :: 0 <= i < |list| ==> cfg.keep > 0 && list[i] + cfg.keep <= Top(m))
    && (list != [] ==> forall n :: n in m.dirs ==> n >= list[0])
  }

  ghost predicate Pending(m: Machine, n: nat) {
    m.holder.Some? && m.holder.value.Deleting? && n in m.holder.value.list
  }

  ghost predicate Inv(cfg: KVConfig, m: Machine) {
    && Window(m) && Contents(m) && Numbers(m)
    && (m.holder.Some? && m.holder.value.Deleting? ==> Lowest(cfg, m, m.holder.value.list))
  }

  // ---- one step ----

  // Nothing but the newest keep is left out of the list.
  ghost predicate Covers(cfg: KVConfig, m: Machine, list: seq<nat>) {
    cfg.keep > 0 ==> forall n :: n in m.dirs ==> n + cfg.keep > Top(m) || n in list
  }

  // Listing a gap-free window: the entries to delete are its lowest ones.
  lemma OldIsLowest(cfg: KVConfig, m: Machine, list: seq<nat>)
    requires Window(m) && Lists(list, m.dirs.Keys)
    ensures Lowest(cfg, m, Old(cfg.keep, list))
    ensures Covers(cfg, m, Old(cfg.keep, list))
  {
    GapScan(list, m.dirs.Keys);
    forall i | 0 <= i < |list|
      ensures list[i] == list[0] + i && list[i] in m.dirs
    {
      StepsAdd(list, i);
      assert list[i] in list;
    }
    if list != [] {
      assert list[0] in m.dirs && Top(m) > 0 && Top(m) in list;
      var t :| 0 <= t < |list| && list[t] == Top(m);
      assert list[|list| - 1] == Top(m);
      forall n | n in m.dirs && cfg.keep > 0 && n + cfg.keep <= Top(m)
        ensures n in Old(cfg.keep, list)
      {
        var i :| 0 <= i < |list| && list[i] == n;
        assert Old(cfg.keep, list)[i] == n;
      }
    }
  }

  // Deleting the lowest checkpoint leaves a gap-free window.
  lemma ShrinkWindow(cfg: KVConfig, m: Machine, list: seq<nat>)
    requires Window(m) && Lowest(cfg, m, list) && list != []
    ensures list[0] in m.dirs && Window(m.(dirs := m.dirs - {list[0]}))
  {
    assert list[0] in m.dirs && list[0] < Top(m);
    var m' := m.(dirs := m.dirs - {list[0]});
    forall a, b, c | a in m'.dirs.Keys && c in m'.dirs.Keys && a <= b <= c
      ensures b in m'.dirs.Keys
    {
      assert a in m.dirs.Keys && c in m.dirs.Keys;
    }
  }

  lemma ShrinkLowest(cfg: KVConfig, m: Machine, list: seq<nat>)
    requires Window(m) && Lowest(cfg, m, list) && list != []
    ensures Lowest(cfg, m.(dirs := m.dirs - {list[0]}), list[1..])
    ensures Covers(cfg, m, list) <==> Covers(cfg, m.(dirs := m.dirs - {list[0]}), list[1..])
  {
    assert forall i :: 0 <= i < |list| - 1 ==> list[1..][i] == list[i + 1];
    forall n | n in list && n != list[0]
      ensures n in list[1..]
    {
      var i :| 0 <= i < |list| && list[i] == n;
      assert list[1..][i - 1] == n;
    }
    assert forall n :: n in list[1..] ==> n in list;
    assert list[0] in list;
  }

  lemma DeleteLowest(cfg: KVConfig, m: Machine, list: seq<nat>)
    requires Inv(cfg, m) && m.holder == Some(Deleting(list)) && list != []
    ensures list[0] in m.dirs
    ensures Inv(cfg, m.(dirs := m.dirs - {list[0]}, holder := Some(Deleting(list[1..]))))
  {
    ShrinkWindow(cfg, m, list);
    ShrinkLowest(cfg, m, list);
  }

  lemma GrowWindow(m: Machine, m': Machine)
    requires Window(m) && m'.dirs.Keys == m.dirs.Keys + {Top(m) + 1} && Top(m') == Top(m) + 1
    ensures Window(m')
  {
    forall a, b, c | a in m'.dirs.Keys && c in m'.dirs.Keys && a <= b <= c
      ensures b in m'.dirs.Keys
    {
      if b <= Top(m) {
        assert a in m.dirs.Keys;
        assert Top(m) in m.dirs.Keys;
      }
    }
  }

  lemma GrowLowest(cfg: KVConfig, m: Machine, m': Machine, list: seq<nat>)
    requires Window(m) && Lowest(cfg, m, list)
    requires m'.dirs.Keys == m.dirs.Keys + {Top(m) + 1} && Top(m') == Top(m) + 1
    ensures Lowest(cfg, m', list)
  {
    assert forall n :: n in m'.dirs ==> n in m.dirs || n == Top(m) + 1;
  }

  lemma CreateStep(cfg: KVConfig, m: Machine)
    requires Inv(cfg, m) && m.stage.Creating?
    ensures Inv(cfg, m.(dirs := m.dirs[m.currentBatch := None], stage := Filling))
  {
    var m' := m.(dirs := m.dirs[m.currentBatch := None], stage := Filling);
    GrowWindow(m, m');
    if m.holder.Some? && m.holder.value.Deleting? {
      GrowLowest(cfg, m, m', m.holder.value.list);
    }
  }

  lemma FillStep(cfg: KVConfig, m: Machine)
    requires Inv(cfg, m) && m.stage.Filling?
    ensures Inv(cfg, m.(dirs := m.dirs[m.currentBatch := Some(m.db)], stage := Viewing))
  {
    assert m.dirs[m.currentBatch := Some(m.db)].Keys == m.dirs.Keys;
  }

  lemma ClearStep(cfg: KVConfig, m: Machine)
    requires Inv(cfg, m) && m.stage.Clearing?
    ensures Inv(cfg, m.(dirs := m.dirs - {m.currentBatch}, stage := Creating))
  {
    assert m.dirs - {m.currentBatch} == m.dirs;
  }

  // The steps that touch no directory.
  lemma LightStep(cfg: KVConfig, m: Machine, a: Action)
    requires Inv(cfg, m) && (a.Write? || a.Advance? || a.StoreBatch? || a.View? || a.Spawn? || a.Acquire?)
    requires Step(cfg, m, a).Some?
    ensures Inv(cfg, Step(cfg, m, a).value)
  {
    assert Top(Step(cfg, m, a).value) == Top(m);
  }

  lemma StepKeepsInv(cfg: KVConfig, m: Machine, a: Action)
    requires Inv(cfg, m) && Step(cfg, m, a).Some?
    ensures Inv(cfg, Step(cfg, m, a).value)
  {
    if a.List? {
      OldIsLowest(cfg, m, a.list);
    } else if a.Create? {
      CreateStep(cfg, m);
    } else if a.Fill? {
      FillStep(cfg, m);
    } else if a.Clear? {
      ClearStep(cfg, m);
    } else if !a.Delete? {
      LightStep(cfg, m, a);
    } else if m.holder.value.list != [] {
      DeleteLowest(cfg, m, m.holder.value.list);
    }
  }

  // Every checkpoint is one of the newest keep, or about to be deleted, or a pruner is still to look.
  ghost predicate WillBePruned(cfg: KVConfig, m: Machine) {
    || m.waiting > 0 || m.holder == Some(Listing) || !m.stage.Resting?
    || if m.holder.Some? && m.holder.value.Deleting? then Covers(cfg, m, m.holder.value.list) else Covers(cfg, m, [])
  }

  // So it stays, one way or the other, until a checkpoint is started.
  lemma StepWillBePruned(cfg: KVConfig, m: Machine, a: Action)
    requires Inv(cfg, m) && Step(cfg, m, a).Some?
    ensures WillBePruned(cfg, Step(cfg, m, a).value) <==> WillBePruned(cfg, m) || a.Advance?
  {
    if a.List? {
      OldIsLowest(cfg, m, a.list);
    } else if a.Delete? && m.holder.value.list != [] {
      ShrinkLowest(cfg, m, m.holder.value.list);
    }
  }

  // One step deletes no checkpoint among the newest keep, and no listing finds a gap.
  lemma StepKeepsNewest(cfg: KVConfig, m: Machine, a: Action)
    requires Inv(cfg, m) && Step(cfg, m, a).Some?
    ensures var m' := Step(cfg, m, a).value;
      && Top(m) <= Top(m') <= Top(m) + 1 && (Top(m') > Top(m) ==> Top(m') in m'.dirs)
      && (forall n :: n in m.dirs && (cfg.keep == 0 || n + cfg.keep > Top(m')) ==> n in m'.dirs)
      && (a.List? ==> m'.holder.Some?)
  {
    if a.Delete? && m.holder.value.list != [] {
      assert m.holder.value.list[0] + cfg.keep <= Top(m);
    }
  }

  // The batch that the "last" view is for.
  function Shown(m: Machine): nat {
    if m.stage.Resting? || m.stage.Spawning? || m.currentBatch == 0 then m.currentBatch else m.currentBatch - 1
  }

  // The view is the checkpoint of its batch, as long as that is there, and empty at 0.
  ghost predicate ViewIsCheckpoint(m: Machine) {
    && (Shown(m) == 0 ==> m.last == EMPTY_SNAPSHOT)
    && (Shown(m) in m.dirs ==> m.dirs[Shown(m)] == Some(m.last))
  }

  // No step but that of MakeCheckpoint changes the view, least of all a write to the working storage.
  lemma StepKeepsView(cfg: KVConfig, m: Machine, a: Action)
    requires Inv(cfg, m) && ViewIsCheckpoint(m) && Step(cfg, m, a).Some?
    ensures var m' := Step(cfg, m, a).value;
      ViewIsCheckpoint(m') && (!a.View? ==> m'.last == m.last)
  {
    hide Window, Lowest;
    if a.Delete? && m.holder.value.list != [] {
      DeleteLowest(cfg, m, m.holder.value.list);
    }
  }

  // ---- every run ----

  ghost function Run(cfg: KVConfig, m: Machine, actions: seq<Action>): Option<Machine> {
    if actions == [] then Some(m)
    else
      var before := Run(cfg, m, actions[..|actions| - 1]);
      if before.None? then None else Step(cfg, before.value, actions[|actions| - 1])
  }

  // At rest, with no pruner left.
  ghost predicate Quiet(m: Machine) {
    m.stage.Resting? && m.waiting == 0 && m.holder.None?
  }

  ghost predicate Orderly(cfg: KVConfig, m: Machine) {
    Inv(cfg, m) && ViewIsCheckpoint(m)
  }

  // An opened store has no pruner yet. Opening prunes nothing, so it may have more checkpoints than it
  // keeps.
  lemma OpenedIsOrderly(cfg: KVConfig, m: Machine)
    requires Quiet(m) && Window(m) && Contents(m) && Numbers(m) && ViewIsCheckpoint(m)
    ensures Orderly(cfg, m) && (WillBePruned(cfg, m) <==> Covers(cfg, m, []))
  {
  }

  lemma {:induction false} RunKeepsInv(cfg: KVConfig, m: Machine, actions: seq<Action>)
    requires Orderly(cfg, m) && Run(cfg, m, actions).Some?
    ensures Orderly(cfg, Run(cfg, m, actions).value)
  {
    hide Step, Inv, ViewIsCheckpoint;
    if actions != [] {
      var before := Run(cfg, m, actions[..|actions| - 1]);
      RunKeepsInv(cfg, m, actions[..|actions| - 1]);
      StepKeepsInv(cfg, before.value, actions[|actions| - 1]);
      StepKeepsView(cfg, before.value, actions[|actions| - 1]);
    }
  }

  // From the point where k steps were taken on, no step deletes a checkpoint that is still among
  // the newest keep at the end.
  lemma {:induction false} NewestSurvive(cfg: KVConfig, m: Machine, actions: seq<Action>, k: nat)
    requires Orderly(cfg, m) && k <= |actions|
    requires Run(cfg, m, actions).Some? && Run(cfg, m, actions[..k]).Some?
    ensures var early := Run(cfg, m, actions[..k]).value;
      var late := Run(cfg, m, actions).value;
      && Top(early) <= Top(late)
      && forall n :: n in early.dirs && (cfg.keep == 0 || n + cfg.keep > Top(late)) ==> n in late.dirs
  {
    if k == |actions| {
      assert actions[..k] == actions;
    } else {
      var last := |actions| - 1;
      assert actions[..last][..k] == actions[..k];
      NewestSurvive(cfg, m, actions[..last], k);
      RunKeepsInv(cfg, m, actions[..last]);
      StepKeepsNewest(cfg, Run(cfg, m, actions[..last]).value, actions[last]);
    }
  }

  // Every batch after the base is there while it is among the newest keep.
  ghost predicate NewestPresent(cfg: KVConfig, base: nat, m: Machine) {
    forall n :: base < n <= Top(m) && (cfg.keep == 0 || n + cfg.keep > Top(m)) ==> n in m.dirs
  }

  lemma StepKeepsPresent(cfg: KVConfig, base: nat, m: Machine, a: Action)
    requires Inv(cfg, m) && Step(cfg, m, a).Some? && NewestPresent(cfg, base, m)
    ensures NewestPresent(cfg, base, Step(cfg, m, a).value)
  {
    StepKeepsNewest(cfg, m, a);
  }

  lemma {:induction false} RunKeepsPresent(cfg: KVConfig, m: Machine, actions: seq<Action>)
    requires Orderly(cfg, m) && Run(cfg, m, actions).Some?
    ensures NewestPresent(cfg, Top(m), Run(cfg, m, actions).value)
  {
    if actions != [] {
      var last := |actions| - 1;
      RunKeepsPresent(cfg, m, actions[..last]);
      RunKeepsInv(cfg, m, actions[..last]);
      StepKeepsPresent(cfg, Top(m), Run(cfg, m, actions[..last]).value, actions[last]);
    }
  }

  lemma {:induction false} RunWillBePruned(cfg: KVConfig, m: Machine, actions: seq<Action>)
    requires Orderly(cfg, m) && Run(cfg, m, actions).Some?
    ensures var late := Run(cfg, m, actions).value;
      && late.currentBatch >= m.currentBatch
      && (WillBePruned(cfg, late) <==> WillBePruned(cfg, m) || late.currentBatch > m.currentBatch)
  {
    hide Inv, ViewIsCheckpoint, WillBePruned;
    if actions != [] {
      var last := |actions| - 1;
      var before := Run(cfg, m, actions[..last]).value;
      RunWillBePruned(cfg, m, actions[..last]);
      RunKeepsInv(cfg, m, actions[..last]);
      StepWillBePruned(cfg, before, actions[last]);
    }
  }

  // Whatever the interleaving: the checkpoint numbers are a gap-free run that ends at the current
  // batch (at the one before while a new one is being started), checkpoint n stores batch n, and all
  // of the newest keep are there. Once everything is quiet exactly those are left, if and only if a
  // checkpoint was started or the rest was going to be deleted anyway. Between checkpoints the "last"
  // view is the checkpoint of the current batch, and empty at 0.
  lemma EveryInterleaving(cfg: KVConfig, m: Machine, actions: seq<Action>)
    requires Orderly(cfg, m) && Run(cfg, m, actions).Some?
    ensures var late := Run(cfg, m, actions).value;
      && Orderly(cfg, late)
      && NewestPresent(cfg, Top(m), late)
      && (forall n :: n in m.dirs && (cfg.keep == 0 || n + cfg.keep > Top(late)) ==> n in late.dirs)
      && (Quiet(late) ==> (Covers(cfg, late, []) <==> WillBePruned(cfg, m) || late.currentBatch > m.currentBatch))
      && (late.stage.Resting? ==>
            if late.currentBatch == 0 then late.last == EMPTY_SNAPSHOT
            else late.currentBatch in late.dirs && late.dirs[late.currentBatch] == Some(late.last))
  {
    RunKeepsInv(cfg, m, actions);
    RunWillBePruned(cfg, m, actions);
    RunKeepsPresent(cfg, m, actions);
    NewestSurvive(cfg, m, actions, 0);
  }

  // ---- resets ----

  // A reset to a batch that has its checkpoint, between two checkpoints. It takes no lock, so a pruner
  // goes on with the list it read before.
  function WentBack(m: Machine, b: nat): Machine
    requires b == 0 || (b in m.dirs && m.dirs[b].Some?)
  {
    var s := if b == 0 then EMPTY_SNAPSHOT else m.dirs[b].value;
    m.(db := s, currentBatch := b, last := s, dirs := map n | n in m.dirs && n <= b :: m.dirs[n])
  }

  // What is still to be deleted is not among the newest keep of the batch gone back to.
  ghost predicate SafeBack(cfg: KVConfig, m: Machine, b: nat) {
    forall n: nat :: Pending(m, n) ==> n + cfg.keep <= b
  }

  ghost predicate CanGoBack(cfg: KVConfig, m: Machine, b: nat) {
    Orderly(cfg, m) && m.stage.Resting? && (b == 0 || (b in m.dirs && m.dirs[b].Some?))
  }

  lemma BackWindow(cfg: KVConfig, m: Machine, b: nat)
    requires CanGoBack(cfg, m, b)
    ensures var m' := WentBack(m, b); Window(m') && Contents(m') && Numbers(m') && ViewIsCheckpoint(m')
  {
    var m' := WentBack(m, b);
    forall x, y, z | x in m'.dirs.Keys && z in m'.dirs.Keys && x <= y <= z
      ensures y in m'.dirs.Keys
    {
      assert x in m.dirs.Keys && z in m.dirs.Keys;
    }
  }

  lemma BackLowestIff(cfg: KVConfig, m: Machine, b: nat, list: seq<nat>)
    requires CanGoBack(cfg, m, b) && m.holder == Some(Deleting(list))
    ensures Lowest(cfg, WentBack(m, b), list) <==> SafeBack(cfg, m, b)
  {
    hide Window, Contents, Numbers, ViewIsCheckpoint;
    var m' := WentBack(m, b);
    assert Lowest(cfg, m, list);
    if SafeBack(cfg, m, b) {
      forall i | 0 <= i < |list|
        ensures list[i] + cfg.keep <= b && list[i] in m'.dirs
      {
        assert Pending(m, list[i]);
      }
    }
    if Lowest(cfg, m', list) {
      forall n: nat | Pending(m, n)
        ensures n + cfg.keep <= b
      {
        var i :| 0 <= i < |list| && list[i] == n;
      }
    }
  }

  // A reset is a new start for everything above if and only if it is safe.
  lemma BackIsOrderlyIff(cfg: KVConfig, m: Machine, b: nat)
    requires CanGoBack(cfg, m, b)
    ensures Orderly(cfg, WentBack(m, b)) <==> SafeBack(cfg, m, b)
  {
    BackWindow(cfg, m, b);
    if m.holder.Some? && m.holder.value.Deleting? {
      BackLowestIff(cfg, m, b, m.holder.value.list);
    }
  }

  function Deletes(k: nat): seq<Action> {
    seq(k, _ => Delete)
  }

  ghost predicate Consecutive(list: seq<nat>) {
    forall i :: 0 <= i < |list| ==> list[i] == list[0] + i
  }

  // A pruner left to itself deletes its list from the front, as long as it finds what it looks for.
  lemma {:induction false} PrunerGoesOn(cfg: KVConfig, m: Machine, list: seq<nat>, k: nat)
    requires m.holder == Some(Deleting(list)) && Consecutive(list) && k <= |list|
    requires forall i :: 0 <= i < k ==> list[i] in m.dirs
    ensures var late := Run(cfg, m, Deletes(k));
      && late.Some? && late.value.holder == Some(Deleting(list[k..]))
      && forall n :: n in late.value.dirs <==> n in m.dirs && !(0 < k && list[0] <= n < list[0] + k)
  {
    if k == 0 {
      assert list[0..] == list;
    } else {
      PrunerGoesOn(cfg, m, list, k - 1);
      assert Deletes(k)[..k - 1] == Deletes(k - 1);
      assert list[k - 1..][0] == list[k - 1] && list[k - 1..][1..] == list[k..];
    }
  }

  // And an unsafe reset does lose a checkpoint among the newest keep of the batch gone back to, if the
  // pruner goes on before anything else happens.
  lemma UnsafeBackLoses(cfg: KVConfig, m: Machine, b: nat) returns (k: nat, lost: nat)
    requires CanGoBack(cfg, m, b) && b > 0 && !SafeBack(cfg, m, b)
    ensures lost in WentBack(m, b).dirs && lost <= b < lost + cfg.keep
    ensures var late := Run(cfg, WentBack(m, b), Deletes(k)); late.Some? && lost !in late.value.dirs
  {
    var list := m.holder.value.list;
    assert Lowest(cfg, m, list);
    var n: nat :| Pending(m, n) && n + cfg.keep > b;
    var i :| 0 <= i < |list| && list[i] == n;
    lost := if n <= b then n else b;
    assert b >= list[0];
    k := lost - list[0] + 1;
    assert list[k - 1] == lost && lost in m.dirs;
    assert forall j :: 0 <= j < k ==> list[j] in WentBack(m, b).dirs;
    PrunerGoesOn(cfg, WentBack(m, b), list, k);
  }
}
