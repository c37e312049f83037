/**
 The life of a snapshot: the `CreateSnapshot` and `DeleteSnapshot` handlers of cmd/server/main.go
 over the disk, the snapshot rows of internal/storage/db.go and the two counters.

 Handlers run in parallel and hold no lock, so each is cut into its separate effects, and a run is
 any interleaving of the effects of any number of handlers with those of automatic snapshots,
 retention and restores. Each effect may fail where the program checks for failure or ignores it. Row
 ids, handlers and the paths of new snapshots are never used twice; a restore may go to any free path.
 */
module Lifecycle {
  import opened Sequences

  type Handler = int
  // Row ids and paths matter only as names that are equal or not.
  type Id = int
  type Path = int

  /** How far a handler has got. */
  datatype Stage =
    | Snapped(path: Path)     // create: on disk, no row yet
    | Recorded                // create: row written, not counted yet
    | Found(id: Id)           // delete: row read
    | Removed(id: Id)         // delete: off the disk, row still there
    | Erased(id: Id)          // delete: row write attempted, not counted yet

  /**
   Disk, rows and counters, and the handlers under way. The rest is a record of the past: the path
   of every row there has been, every path and handler used, which handler took each row's snapshot
   off the disk, and the rows whose erasure failed.
   */
  datatype State = State(
    disk: set<Path>,
    rows: map<Id, Path>,
    created: int,
    deleted: int,
    active: map<Handler, Stage>,
    pathOf: map<Id, Path>,
    usedPaths: set<Path>,
    usedHandlers: set<Handler>,
    taker: map<Id, Handler>,
    lost: set<Id>)

  datatype Step =
    | CreateDisk(h: Handler, path: Path, works: bool)
    | CreateRow(h: Handler, id: Id, works: bool)
    | CreateCount(h: Handler)
    | DeleteGet(h: Handler, id: Id, works: bool)
    | DeleteDisk(h: Handler, works: bool)
    | DeleteRow(h: Handler, works: bool)
    | DeleteCount(h: Handler)
    | Automatic(path: Path)    // execute: a snapshot without a row
    | Retain(path: Path)       // applyRetention: a snapshot deleted without looking at the rows
    | Restore(path: Path)      // handleRestore: a snapshot at a path the caller chose, used ones included

  /** What can happen next. */
  ghost predicate Possible(s: State, step: Step) {
    match step
    case CreateDisk(h, path, _) => h !in s.usedHandlers && path !in s.usedPaths
    case CreateRow(h, id, _) => h in s.active && s.active[h].Snapped? && id !in s.pathOf
    case CreateCount(h) => h in s.active && s.active[h].Recorded?
    case DeleteGet(h, _, _) => h !in s.usedHandlers
    case DeleteDisk(h, _) => h in s.active && s.active[h].Found?
    case DeleteRow(h, _) => h in s.active && s.active[h].Removed?
    case DeleteCount(h) => h in s.active && s.active[h].Erased?
    case Automatic(path) => path !in s.usedPaths
    case Retain(_) => true
    case Restore(path) => path !in s.disk
  }

  /** A restore to the path of a row whose snapshot a deletion has taken: that row can be deleted again. */
  ghost predicate Revives(s: State, step: Step) {
    step.Restore? && exists id :: id in s.taker && id in s.pathOf && s.pathOf[id] == step.path
  }

  /** What can happen next when restores leave the paths of taken rows alone. */
  ghost predicate Enabled(s: State, step: Step) {
    Possible(s, step) && !Revives(s, step)
  }

  function At(s: State, h: Handler, stage: Stage): State {
    s.(active := s.active[h := stage], usedHandlers := s.usedHandlers + {h})
  }

  function Ended(s: State, h: Handler): State {
    s.(active := s.active - {h}, usedHandlers := s.usedHandlers + {h})
  }

  function Apply(s: State, step: Step): State {
    match step
    case CreateDisk(h, path, works) =>
      if works
      then At(s, h, Snapped(path)).(disk := s.disk + {path}, usedPaths := s.usedPaths + {path})
      else Ended(s, h)
    case CreateRow(h, id, works) =>
      if h !in s.active || !s.active[h].Snapped? then s
      else if works
      then At(s, h, Recorded).(rows := s.rows[id := s.active[h].path], pathOf := s.pathOf[id := s.active[h].path])
      else Ended(s, h)
    case CreateCount(h) =>
      if h in s.active && s.active[h].Recorded? then Ended(s, h).(created := s.created + 1) else s
    case DeleteGet(h, id, works) => if works && id in s.rows then At(s, h, Found(id)) else Ended(s, h)
    case DeleteDisk(h, works) =>
      if h !in s.active || !s.active[h].Found? || s.active[h].id !in s.pathOf then s
      else
        var id := s.active[h].id;
        if works && s.pathOf[id] in s.disk
        then At(s, h, Removed(id)).(disk := s.disk - {s.pathOf[id]}, taker := s.taker[id := h])
        else Ended(s, h)
    case DeleteRow(h, works) =>
      if h !in s.active || !s.active[h].Removed? then s
      else
        var id := s.active[h].id;
        if works then At(s, h, Erased(id)).(rows := s.rows - {id})
        else At(s, h, Erased(id)).(lost := s.lost + {id})
    case DeleteCount(h) =>
      if h in s.active && s.active[h].Erased? then Ended(s, h).(deleted := s.deleted + 1) else s
    case Automatic(path) => s.(disk := s.disk + {path}, usedPaths := s.usedPaths + {path})
    case Retain(path) => s.(disk := s.disk - {path})
    case Restore(path) => s.(disk := s.disk + {path}, usedPaths := s.usedPaths + {path})
  }

  function Play(s: State, run: seq<Step>): State {
    if run == [] then s else Apply(Play(s, Front(run)), Last(run))
  }

  ghost predicate Legal(s: State, run: seq<Step>) {
    run != [] ==> Legal(s, Front(run)) && Enabled(Play(s, Front(run)), Last(run))
  }

  /** A server at rest: rows with distinct paths, all of them on disk, and no handler under way. */
  function Resting(disk: set<Path>, rows: map<Id, Path>, created: int, deleted: int): State {
    State(disk, rows, created, deleted, map[], rows, disk + rows.Values, {}, map[], {})
  }

  // ---------- What every state keeps ----------

  /** No two rows there have been share a path. */
  ghost predicate RowsApart(s: State) {
    forall a, b :: a in s.pathOf && b in s.pathOf && s.pathOf[a] == s.pathOf[b] ==> a == b
  }

  /** A snapshot waiting for its row is nobody else's. */
  ghost predicate PendingApart(s: State) {
    && (forall h, id :: h in s.active && s.active[h].Snapped? && id in s.pathOf ==> s.pathOf[id] != s.active[h].path)
    && (forall h, g :: h in s.active && g in s.active && h != g && s.active[h].Snapped? && s.active[g].Snapped?
          ==> s.active[h].path != s.active[g].path)
  }

  ghost predicate PathsAreUsed(s: State) {
    && s.disk <= s.usedPaths
    && (forall id :: id in s.pathOf ==> s.pathOf[id] in s.usedPaths)
    && (forall h :: h in s.active && s.active[h].Snapped? ==> s.active[h].path in s.usedPaths)
    && (forall h :: h in s.active ==> h in s.usedHandlers)
    && (forall id :: id in s.taker ==> s.taker[id] in s.usedHandlers)
  }

  ghost predicate RowsAreRecorded(s: State) {
    && (forall id :: id in s.rows ==> id in s.pathOf && s.rows[id] == s.pathOf[id])
    && (forall h :: h in s.active && (s.active[h].Found? || s.active[h].Removed? || s.active[h].Erased?) ==>
          s.active[h].id in s.pathOf)
  }

  /** A snapshot taken off the disk for a row has one taker and never comes back. */
  ghost predicate TakenOnce(s: State) {
    && (forall id :: id in s.taker ==> id in s.pathOf && s.pathOf[id] !in s.disk)
    && (forall h :: h in s.active && (s.active[h].Removed? || s.active[h].Erased?) ==>
          s.active[h].id in s.taker && s.taker[s.active[h].id] == h)
  }

  /** A row goes only after its snapshot was taken, and stays until its taker erases it. */
  ghost predicate RowsOutlive(s: State) {
    && (forall h :: h in s.active && s.active[h].Removed? ==> s.active[h].id in s.rows && s.active[h].id !in s.lost)
    && (forall id :: id in s.lost ==> id in s.taker)
    && (forall id :: id in s.pathOf && id !in s.rows ==> id in s.taker)
  }

  /** A row that outlives its snapshot is about to be erased, or was lost. */
  ghost predicate TakenRowsAreLost(s: State) {
    forall id :: id in s.rows && id in s.taker ==>
      id in s.lost || (s.taker[id] in s.active && s.active[s.taker[id]] == Removed(id))
  }

  ghost predicate Inv(s: State) {
    && RowsApart(s) && PendingApart(s) && PathsAreUsed(s) && RowsAreRecorded(s)
    && TakenOnce(s) && RowsOutlive(s) && TakenRowsAreLost(s)
  }

  lemma InvPerStep(s: State, step: Step)
    requires Inv(s) && Enabled(s, step)
    ensures Inv(Apply(s, step))
  {
    match step
    case CreateDisk(h, path, works) => AfterCreateDisk(s, h, path, works);
    case CreateRow(h, id, works) => AfterCreateRow(s, h, id, works);
    case CreateCount(h) => AfterCreateCount(s, h);
    case DeleteGet(h, id, works) => AfterDeleteGet(s, h, id, works);
    case DeleteDisk(h, works) => AfterDeleteDisk(s, h, works);
    case DeleteRow(h, works) => AfterDeleteRow(s, h, works);
    case DeleteCount(h) => AfterDeleteCount(s, h);
    case Automatic(path) => AfterAutomatic(s, path);
    case Retain(path) => AfterRetain(s, path);
    case Restore(path) => AfterRestore(s, path);
  }

  lemma AfterCreateDisk(s: State, h: Handler, path: Path, works: bool)
    requires Inv(s) && Enabled(s, CreateDisk(h, path, works))
    ensures Inv(Apply(s, CreateDisk(h, path, works)))
  {
  }

  lemma AfterCreateRow(s: State, h: Handler, id: Id, works: bool)
    requires Inv(s) && Enabled(s, CreateRow(h, id, works))
    ensures Inv(Apply(s, CreateRow(h, id, works)))
  {
  }

  lemma AfterCreateCount(s: State, h: Handler)
    requires Inv(s) && Enabled(s, CreateCount(h))
    ensures Inv(Apply(s, CreateCount(h)))
  {
  }

  lemma AfterDeleteGet(s: State, h: Handler, id: Id, works: bool)
    requires Inv(s) && Enabled(s, DeleteGet(h, id, works))
    ensures Inv(Apply(s, DeleteGet(h, id, works)))
  {
  }

  lemma AfterDeleteDisk(s: State, h: Handler, works: bool)
    requires Inv(s) && Enabled(s, DeleteDisk(h, works))
    ensures Inv(Apply(s, DeleteDisk(h, works)))
  {
  }

  lemma AfterDeleteRow(s: State, h: Handler, works: bool)
    requires Inv(s) && Enabled(s, DeleteRow(h, works))
    ensures Inv(Apply(s, DeleteRow(h, works)))
  {
  }

  lemma AfterDeleteCount(s: State, h: Handler)
    requires Inv(s) && Enabled(s, DeleteCount(h))
    ensures Inv(Apply(s, DeleteCount(h)))
  {
  }

  lemma AfterAutomatic(s: State, path: Path)
    requires Inv(s) && Enabled(s, Automatic(path))
    ensures Inv(Apply(s, Automatic(path)))
  {
  }

  lemma AfterRetain(s: State, path: Path)
    requires Inv(s) && Enabled(s, Retain(path))
    ensures Inv(Apply(s, Retain(path)))
  {
  }

  lemma AfterRestore(s: State, path: Path)
    requires Inv(s) && Enabled(s, Restore(path))
    ensures Inv(Apply(s, Restore(path)))
  {
  }

  lemma {:induction false} InvAlways(s: State, run: seq<Step>)
    requires Inv(s) && Legal(s, run)
    ensures Inv(Play(s, run))
  {
    if run != [] {
      InvAlways(s, Front(run));
      InvPerStep(Play(s, Front(run)), Last(run));
    }
  }

  // ---------- At most one success for a row ----------

  /** How many deletions of row `id` have been reported successful. */
  function Successes(s: State, run: seq<Step>, id: Id): nat {
    if run == [] then 0 else
    var before, step := Play(s, Front(run)), Last(run);
    Successes(s, Front(run), id) +
    (if step.DeleteCount? && step.h in before.active && before.active[step.h] == Erased(id) then 1 else 0)
  }

  lemma TakerStays(s: State, step: Step, id: Id)
    requires Inv(s) && Enabled(s, step) && id in s.taker
    ensures var r := Apply(s, step);
            && id in r.taker && r.taker[id] == s.taker[id]
            && (s.taker[id] !in s.active ==> r.taker[id] !in r.active)
  {
  }

  lemma {:induction false} SuccessEndsTheTaker(s: State, run: seq<Step>, id: Id)
    requires Inv(s) && Legal(s, run)
    ensures var r := Play(s, run);
            && Successes(s, run, id) <= 1
            && (Successes(s, run, id) == 1 ==> id in r.taker && r.taker[id] !in r.active)
  {
    if run != [] {
      var b, step := Play(s, Front(run)), Last(run);
      InvAlways(s, Front(run));
      SuccessEndsTheTaker(s, Front(run), id);
      if id in b.taker {
        TakerStays(b, step, id);
      }
      if step.DeleteCount? && b.active[step.h] == Erased(id) {
        assert b.taker[id] == step.h && step.h !in Apply(b, step).active;
      }
    }
  }

  /** Whatever interleaves, fails or is deleted by retention, a row is deleted successfully at most once. */
  lemma DeletedOnce(s: State, run: seq<Step>, id: Id)
    requires Inv(s) && Legal(s, run)
    ensures Successes(s, run, id) <= 1
  {
    SuccessEndsTheTaker(s, run, id);
  }

  // ---------- Restores to used paths ----------

  ghost predicate Feasible(s: State, run: seq<Step>) {
    run != [] ==> Feasible(s, Front(run)) && Possible(Play(s, Front(run)), Last(run))
  }

  /** The step takes the snapshot of row `id` off the disk. */
  predicate TakesNow(s: State, step: Step, id: Id) {
    && step.DeleteDisk? && step.works && step.h in s.active && s.active[step.h] == Found(id)
    && id in s.pathOf && s.pathOf[id] in s.disk
  }

  function Takes(s: State, run: seq<Step>, id: Id): nat {
    if run == [] then 0 else
    Takes(s, Front(run), id) + (if TakesNow(Play(s, Front(run)), Last(run), id) then 1 else 0)
  }

  function Restores(run: seq<Step>, path: Path): nat {
    if run == [] then 0 else Restores(Front(run), path) + (if Last(run) == Restore(path) then 1 else 0)
  }

  /** Handlers that have taken the row's snapshot and not reported success yet. */
  function Takers(s: State, id: Id): set<Handler> {
    set h | h in s.active && (s.active[h] == Removed(id) || s.active[h] == Erased(id))
  }

  lemma TakersPerStep(s: State, step: Step, id: Id)
    requires PathsAreUsed(s) && Possible(s, step)
    ensures Takers(Apply(s, step), id) ==
            if TakesNow(s, step, id) then Takers(s, id) + {step.h}
            else if step.DeleteCount? && s.active[step.h] == Erased(id) then Takers(s, id) - {step.h}
            else Takers(s, id)
    ensures TakesNow(s, step, id) ==> step.h !in Takers(s, id)
  {
  }

  lemma UsedPathsPerStep(s: State, step: Step)
    requires PathsAreUsed(s) && Possible(s, step)
    ensures var r := Apply(s, step);
            && r.disk <= r.usedPaths
            && (forall id :: id in r.pathOf ==> r.pathOf[id] in r.usedPaths)
            && (forall h :: h in r.active && r.active[h].Snapped? ==> r.active[h].path in r.usedPaths)
  {
  }

  lemma UsedHandlersPerStep(s: State, step: Step)
    requires PathsAreUsed(s) && Possible(s, step)
    ensures var r := Apply(s, step);
            && (forall h :: h in r.active ==> h in r.usedHandlers)
            && (forall id :: id in r.taker ==> r.taker[id] in r.usedHandlers)
  {
  }

  lemma UsedPerStep(s: State, step: Step)
    requires PathsAreUsed(s) && Possible(s, step)
    ensures PathsAreUsed(Apply(s, step))
  {
    UsedPathsPerStep(s, step);
    UsedHandlersPerStep(s, step);
  }

  lemma {:induction false} UsedAlways(s: State, run: seq<Step>)
    requires PathsAreUsed(s) && Feasible(s, run)
    ensures PathsAreUsed(Play(s, run))
  {
    if run != [] {
      UsedAlways(s, Front(run));
      UsedPerStep(Play(s, Front(run)), Last(run));
    }
  }

  /** Wherever restores go: successes and handlers on their way to one are as many as snapshots taken for the row. */
  lemma {:induction false} EveryTakeIsReported(s: State, run: seq<Step>, id: Id)
    requires PathsAreUsed(s) && Feasible(s, run) && s.active == map[]
    ensures Successes(s, run, id) + |Takers(Play(s, run), id)| == Takes(s, run, id)
  {
    if run == [] {
      assert Takers(s, id) == {};
    } else {
      EveryTakeIsReported(s, Front(run), id);
      UsedAlways(s, Front(run));
      TakersPerStep(Play(s, Front(run)), Last(run), id);
    }
  }

  /** Each time but the first, a restore has put something back at the path. */
  lemma {:induction false} TakesNeedRestores(s: State, run: seq<Step>, id: Id)
    requires PathsAreUsed(s) && Feasible(s, run)
    ensures var r := Play(s, run);
            if id in r.pathOf
            then Takes(s, run, id) + (if r.pathOf[id] in r.disk then 1 else 0) <= 1 + Restores(run, r.pathOf[id])
            else Takes(s, run, id) == 0
  {
    if run != [] {
      TakesNeedRestores(s, Front(run), id);
      UsedAlways(s, Front(run));
      OccupancyPerStep(Play(s, Front(run)), Last(run), id);
    }
  }

  lemma OccupancyPerStep(s: State, step: Step, id: Id)
    requires PathsAreUsed(s) && Possible(s, step)
    ensures var r := Apply(s, step);
            && (id in s.pathOf ==>
                  && id in r.pathOf && r.pathOf[id] == s.pathOf[id]
                  && (s.pathOf[id] in r.disk ==> s.pathOf[id] in s.disk || step == Restore(s.pathOf[id]))
                  && (TakesNow(s, step, id) ==> s.pathOf[id] in s.disk && s.pathOf[id] !in r.disk))
            && (TakesNow(s, step, id) ==> id in s.pathOf)
  {
  }

  /**
   Wherever restores go, whatever interleaves or fails: a row is reported deleted at most once, and once more
   for each restore to its path.
   */
  lemma DeletedOncePerRestore(s: State, run: seq<Step>, id: Id)
    requires PathsAreUsed(s) && Feasible(s, run) && s.active == map[]
    ensures var r := Play(s, run);
            Successes(s, run, id) <= if id in r.pathOf then 1 + Restores(run, r.pathOf[id]) else 0
    ensures Play(s, run).active == map[] ==> Successes(s, run, id) == Takes(s, run, id)
  {
    EveryTakeIsReported(s, run, id);
    TakesNeedRestores(s, run, id);
  }

  lemma OneMoreStep(s: State, run: seq<Step>, step: Step, id: Id)
    ensures Play(s, run + [step]) == Apply(Play(s, run), step)
    ensures Feasible(s, run + [step]) <==> Feasible(s, run) && Possible(Play(s, run), step)
    ensures Successes(s, run + [step], id) == Successes(s, run, id) +
              if step.DeleteCount? && step.h in Play(s, run).active && Play(s, run).active[step.h] == Erased(id)
              then 1 else 0
  {
    assert Front(run + [step]) == run && Last(run + [step]) == step;
  }

  /** The deletion of row 7 by one handler, with nothing else under way, from a state that holds its snapshot. */
  lemma DeletionSucceeds(s: State, run: seq<Step>, h: Handler, rowWorks: bool)
    requires Feasible(s, run)
    requires var b := Play(s, run);
             b.active == map[] && h !in b.usedHandlers && b.rows == b.pathOf == map[7 := 5] && b.disk == {5}
    ensures var b, more := Play(s, run), run + [DeleteGet(h, 7, true)] + [DeleteDisk(h, true)] +
                                         [DeleteRow(h, rowWorks)] + [DeleteCount(h)];
            var r := Play(s, more);
            && Feasible(s, more) && Successes(s, more, 7) == Successes(s, run, 7) + 1
            && r.active == map[] && r.disk == {} && r.pathOf == map[7 := 5] && r.usedHandlers == b.usedHandlers + {h}
            && r.rows == if rowWorks then map[] else map[7 := 5]
  {
    OneMoreStep(s, run, DeleteGet(h, 7, true), 7);
    var run1 := run + [DeleteGet(h, 7, true)];
    OneMoreStep(s, run1, DeleteDisk(h, true), 7);
    var run2 := run1 + [DeleteDisk(h, true)];
    OneMoreStep(s, run2, DeleteRow(h, rowWorks), 7);
    OneMoreStep(s, run2 + [DeleteRow(h, rowWorks)], DeleteCount(h), 7);
  }

  /** The bound is met: a row whose erasure failed, restored to its old path, is deleted with success again. */
  lemma RestoredRowIsDeletedTwice()
    ensures var s := Resting({5}, map[7 := 5], 0, 0);
            var run := [DeleteGet(1, 7, true)] + [DeleteDisk(1, true)] + [DeleteRow(1, false)] + [DeleteCount(1)] +
                       [Restore(5)] +
                       [DeleteGet(2, 7, true)] + [DeleteDisk(2, true)] + [DeleteRow(2, true)] + [DeleteCount(2)];
            Feasible(s, run) && Successes(s, run, 7) == 2
  {
    var s := Resting({5}, map[7 := 5], 0, 0);
    DeletionSucceeds(s, [], 1, false);
    var first := [DeleteGet(1, 7, true)] + [DeleteDisk(1, true)] + [DeleteRow(1, false)] + [DeleteCount(1)];
    assert [] + [DeleteGet(1, 7, true)] == [DeleteGet(1, 7, true)];
    OneMoreStep(s, first, Restore(5), 7);
    DeletionSucceeds(s, first + [Restore(5)], 2, true);
  }

  /** Step `i` is a failed write that should have erased the row, with its snapshot gone. */
  predicate FailsToErase(s: State, run: seq<Step>, i: int, id: Id) {
    && 0 <= i < |run| && run[i].DeleteRow? && !run[i].works
    && run[i].h in Play(s, run[..i]).active && Play(s, run[..i]).active[run[i].h] == Removed(id)
  }

  /** A row counts as lost exactly when there has been such a write. */
  lemma {:induction false} LostMeansFailedErasure(s: State, run: seq<Step>, id: Id)
    requires s.lost == {}
    ensures id in Play(s, run).lost <==> exists i :: FailsToErase(s, run, i, id)
  {
    if run != [] {
      var f, n := Front(run), |run| - 1;
      LostMeansFailedErasure(s, f, id);
      assert run[..n] == f && run[n] == Last(run);
      LostPerStep(Play(s, f), Last(run), id);
      forall i | 0 <= i < n ensures FailsToErase(s, f, i, id) <==> FailsToErase(s, run, i, id) {
        assert f[..i] == run[..i] && f[i] == run[i];
      }
      if id in Play(s, run).lost && id !in Play(s, f).lost {
        assert FailsToErase(s, run, n, id);
      }
      if i :| FailsToErase(s, run, i, id) {
        assert i == n || FailsToErase(s, f, i, id);
      }
    }
  }

  lemma LostPerStep(s: State, step: Step, id: Id)
    ensures id in Apply(s, step).lost <==>
            id in s.lost ||
            (step.DeleteRow? && !step.works && step.h in s.active && s.active[step.h] == Removed(id))
  {
  }

  /** The step puts a snapshot at the path. */
  predicate Puts(step: Step, path: Path) {
    step == Automatic(path) || step == Restore(path) || (step.CreateDisk? && step.works && step.path == path)
  }

  /** The step takes whatever is at the path off the disk. */
  predicate Drops(s: State, step: Step, path: Path) {
    || step == Retain(path)
    || (step.DeleteDisk? && step.works && step.h in s.active && s.active[step.h].Found? &&
        s.active[step.h].id in s.pathOf && s.pathOf[s.active[step.h].id] == path)
  }

  /** There is something at a path exactly when the last step that put or dropped something there put it. */
  lemma {:induction false} DiskIsLastStep(s: State, run: seq<Step>, path: Path, i: int)
    requires 0 <= i < |run| && (Puts(run[i], path) || Drops(Play(s, run[..i]), run[i], path))
    requires forall j :: i < j < |run| ==> !Puts(run[j], path) && !Drops(Play(s, run[..j]), run[j], path)
    ensures path in Play(s, run).disk <==> Puts(run[i], path)
  {
    var n, f := |run| - 1, Front(run);
    assert run[..n] == f && run[n] == Last(run);
    if i < n {
      forall j | 0 <= j < n ensures f[j] == run[j] && f[..j] == run[..j] {
      }
      DiskIsLastStep(s, f, path, i);
      assert !Puts(run[n], path) && !Drops(Play(s, run[..n]), run[n], path);
    }
    DiskPerStep(Play(s, f), run[n], path);
  }

  lemma DiskPerStep(s: State, step: Step, path: Path)
    ensures path in Apply(s, step).disk <==> Puts(step, path) || (path in s.disk && !Drops(s, step, path))
  {
  }

  // ---------- Rows and counters ----------

  function Recording(s: State): set<Handler> {
    set h | h in s.active && s.active[h].Recorded?
  }

  function Erasing(s: State): set<Handler> {
    set h | h in s.active && s.active[h].Erased?
  }

  /** Rows that are not lost, corrected for the handlers that have changed a row and not counted it yet. */
  function Balance(s: State): int {
    |s.rows| - |s.lost| - s.created + s.deleted - |Recording(s)| + |Erasing(s)|
  }

  /** Which handlers have written a row and not counted it, after a step. */
  lemma GroupsPerStep(s: State, step: Step)
    requires Inv(s) && Enabled(s, step)
    ensures Recording(Apply(s, step)) ==
            (match step
             case CreateRow(h, _, works) => if works then Recording(s) + {h} else Recording(s)
             case CreateCount(h) => Recording(s) - {h}
             case _ => Recording(s))
    ensures Erasing(Apply(s, step)) ==
            (match step
             case DeleteRow(h, _) => Erasing(s) + {h}
             case DeleteCount(h) => Erasing(s) - {h}
             case _ => Erasing(s))
  {
  }

  lemma RowsPerStep(s: State, step: Step)
    requires Inv(s) && Enabled(s, step)
    ensures var r := Apply(s, step);
            |r.rows| - |r.lost| == |s.rows| - |s.lost| +
              (match step case CreateRow(_, _, true) => 1 case DeleteRow(_, _) => -1 case _ => 0)
  {
  }

  lemma RecordingSize(s: State, step: Step)
    requires Inv(s) && Enabled(s, step)
    ensures |Recording(Apply(s, step))| == |Recording(s)| +
              (match step case CreateRow(_, _, true) => 1 case CreateCount(_) => -1 case _ => 0)
  {
    GroupsPerStep(s, step);
    match step
    case CreateRow(h, _, _) => assert h !in Recording(s);
    case CreateCount(h) => assert h in Recording(s);
    case _ =>
  }

  lemma ErasingSize(s: State, step: Step)
    requires Inv(s) && Enabled(s, step)
    ensures |Erasing(Apply(s, step))| == |Erasing(s)| +
              (match step case DeleteRow(_, _) => 1 case DeleteCount(_) => -1 case _ => 0)
  {
    GroupsPerStep(s, step);
    match step
    case DeleteRow(h, _) => assert h !in Erasing(s);
    case DeleteCount(h) => assert h in Erasing(s);
    case _ =>
  }

  lemma BalancePerStep(s: State, step: Step)
    requires Inv(s) && Enabled(s, step)
    ensures Balance(Apply(s, step)) == Balance(s)
  {
    RowsPerStep(s, step);
    RecordingSize(s, step);
    ErasingSize(s, step);
  }

  lemma {:induction false} BalanceAlways(s: State, run: seq<Step>)
    requires Inv(s) && Legal(s, run)
    ensures Balance(Play(s, run)) == Balance(s)
  {
    if run != [] {
      InvAlways(s, Front(run));
      BalanceAlways(s, Front(run));
      BalancePerStep(Play(s, Front(run)), Last(run));
    }
  }

  /**
   When nothing is under way, the live rows are those at the start, plus those created, minus those
   deleted, plus those whose erasure failed behind a reported success. Failed row writes on the
   creating side leave no trace in the sum.
   */
  lemma RowsAddUp(disk: set<Path>, rows: map<Id, Path>, created: int, deleted: int, run: seq<Step>)
    requires forall a, b :: a in rows && b in rows && rows[a] == rows[b] ==> a == b
    requires var s := Resting(disk, rows, created, deleted); Legal(s, run) && Play(s, run).active == map[]
    ensures var r := Play(Resting(disk, rows, created, deleted), run);
            |r.rows| == |rows| + (r.created - created) - (r.deleted - deleted) + |r.lost|
  {
    var s := Resting(disk, rows, created, deleted);
    BalanceAlways(s, run);
    assert Recording(s) == {} && Erasing(s) == {};
    assert Recording(Play(s, run)) == {} && Erasing(Play(s, run)) == {};
  }

  // ---------- Rows are backed by the disk ----------

  /** A live row has its snapshot, unless its deletion is halfway or lost; a snapshot about to be recorded is there. */
  ghost predicate Backed(s: State) {
    && (forall id :: id in s.rows && id !in s.taker ==> s.rows[id] in s.disk)
    && (forall h :: h in s.active && s.active[h].Snapped? ==> s.active[h].path in s.disk)
  }

  /** Retention deletes a snapshot that has a row, or that a handler is about to give one. */
  ghost predicate Orphans(s: State, step: Step) {
    && step.Retain? && step.path in s.disk
    && ((exists id :: id in s.rows && s.rows[id] == step.path) ||
        (exists h :: h in s.active && s.active[h] == Snapped(step.path)))
  }

  lemma BackedPerStep(s: State, step: Step)
    requires Inv(s) && Backed(s) && Enabled(s, step)
    ensures Backed(Apply(s, step)) <==> !Orphans(s, step)
  {
  }

  ghost predicate BackedThroughout(s: State, run: seq<Step>) {
    Backed(Play(s, run)) && (run != [] ==> BackedThroughout(s, Front(run)))
  }

  ghost predicate OrphansNothing(s: State, run: seq<Step>) {
    run != [] ==> !Orphans(Play(s, Front(run)), Last(run)) && OrphansNothing(s, Front(run))
  }

  /**
   Rows and pending creations are backed in every state of a run exactly when retention never deletes a
   snapshot that is recorded or about to be. It is not enough that it spares recorded paths: see the example below.
   */
  lemma {:induction false} RowsAreBacked(s: State, run: seq<Step>)
    requires Inv(s) && Backed(s) && Legal(s, run)
    ensures BackedThroughout(s, run) <==> OrphansNothing(s, run)
  {
    if run != [] {
      InvAlways(s, Front(run));
      RowsAreBacked(s, Front(run));
      if Backed(Play(s, Front(run))) {
        BackedPerStep(Play(s, Front(run)), Last(run));
      }
    }
  }

  /** The same for rows alone. */
  ghost predicate RowsBacked(s: State) {
    forall id :: id in s.rows && id !in s.taker ==> s.rows[id] in s.disk
  }

  /** Retention deletes a recorded snapshot, or a row is written for one that has left the disk meanwhile. */
  ghost predicate Strands(s: State, step: Step) {
    match step
    case Retain(path) => path in s.disk && exists id :: id in s.rows && s.rows[id] == path
    case CreateRow(h, _, works) => works && h in s.active && s.active[h].Snapped? && s.active[h].path !in s.disk
    case _ => false
  }

  lemma RowsBackedPerStep(s: State, step: Step)
    requires Inv(s) && RowsBacked(s) && Enabled(s, step)
    ensures RowsBacked(Apply(s, step)) <==> !Strands(s, step)
  {
    var r := Apply(s, step);
    match step
    case CreateRow(h, id, works) =>
      if Strands(s, step) {
        assert id in r.rows && id !in r.taker && r.rows[id] !in r.disk;
      }
    case _ =>
  }

  ghost predicate RowsBackedThroughout(s: State, run: seq<Step>) {
    RowsBacked(Play(s, run)) && (run != [] ==> RowsBackedThroughout(s, Front(run)))
  }

  ghost predicate StrandsNothing(s: State, run: seq<Step>) {
    run != [] ==> !Strands(Play(s, Front(run)), Last(run)) && StrandsNothing(s, Front(run))
  }

  /**
   For the rows alone: each is backed in every state of a run exactly when retention deletes no recorded
   snapshot and no row is written after its snapshot has gone.
   */
  lemma {:induction false} RecordedRowsAreBacked(s: State, run: seq<Step>)
    requires Inv(s) && RowsBacked(s) && Legal(s, run)
    ensures RowsBackedThroughout(s, run) <==> StrandsNothing(s, run)
  {
    if run != [] {
      InvAlways(s, Front(run));
      RecordedRowsAreBacked(s, Front(run));
      if RowsBacked(Play(s, Front(run))) {
        RowsBackedPerStep(Play(s, Front(run)), Last(run));
      }
    }
  }

  /** At rest, the live rows without a snapshot are then exactly those whose erasure failed. */
  lemma OnlyLostRowsDangle(s: State, run: seq<Step>, id: Id)
    requires Inv(s) && Backed(s) && Legal(s, run) && OrphansNothing(s, run)
    requires Play(s, run).active == map[] && id in Play(s, run).rows
    ensures Play(s, run).rows[id] in Play(s, run).disk <==> id !in Play(s, run).lost
  {
    InvAlways(s, run);
    RowsAreBacked(s, run);
  }

  /** A retention pass between the disk and the row of a new snapshot leaves a live row with nothing behind it. */
  lemma RetentionCanOrphan()
    ensures exists run ::
              var s := Resting({}, map[], 0, 0);
              var r := Play(s, run);
              && Legal(s, run) && r.active == map[] && 7 in r.rows && r.rows[7] !in r.disk && r.lost == {}
  {
    var s := Resting({}, map[], 0, 0);
    var s1, s2, s3, s4 := CreateDisk(0, 5, true), Retain(5), CreateRow(0, 7, true), CreateCount(0);
    var r1 := Apply(s, s1);
    var r2 := Apply(r1, s2);
    var r3 := Apply(r2, s3);
    assert Front([s1]) == [] && Front([s1, s2]) == [s1];
    assert Front([s1, s2, s3]) == [s1, s2] && Front([s1, s2, s3, s4]) == [s1, s2, s3];
    assert Play(s, [s1]) == r1 && Legal(s, [s1]);
    assert Play(s, [s1, s2]) == r2 && Legal(s, [s1, s2]);
    assert Play(s, [s1, s2, s3]) == r3 && Legal(s, [s1, s2, s3]);
    var run := [s1, s2, s3, s4];
    assert Play(s, run) == Apply(r3, s4) && Legal(s, run);
    assert r3.rows == map[7 := 5] && r3.disk == {};
    assert Apply(r3, s4).active == map[];
  }
}

/** The two handlers as the program runs them when nothing else is under way. */
module LifecycleServer {
  import opened Lifecycle
  import opened Sequences

  /** What the program itself stores. */
  datatype Stored = Stored(disk: set<Path>, rows: map<Id, Path>, created: int, deleted: int)

  function StoredOf(s: State): Stored {
    Stored(s.disk, s.rows, s.created, s.deleted)
  }

  function CreateSteps(path: Path, id: Id, diskWorks: bool, rowWorks: bool): seq<Step> {
    [CreateDisk(0, path, diskWorks), CreateRow(0, id, rowWorks), CreateCount(0)]
  }

  function DeleteSteps(id: Id, getWorks: bool, diskWorks: bool, rowWorks: bool): seq<Step> {
    [DeleteGet(0, id, getWorks), DeleteDisk(0, diskWorks), DeleteRow(0, rowWorks), DeleteCount(0)]
  }

  lemma PlayThree(s: State, a: Step, b: Step, c: Step)
    ensures Play(s, [a, b, c]) == Apply(Apply(Apply(s, a), b), c)
  {
    assert Front([a]) == [] && Front([a, b]) == [a] && Front([a, b, c]) == [a, b];
    assert Play(s, [a]) == Apply(s, a);
    assert Play(s, [a, b]) == Apply(Apply(s, a), b);
  }

  lemma PlayFour(s: State, a: Step, b: Step, c: Step, d: Step)
    ensures Play(s, [a, b, c, d]) == Apply(Apply(Apply(Apply(s, a), b), c), d)
  {
    PlayThree(s, a, b, c);
    assert Front([a, b, c, d]) == [a, b, c];
  }

  class Handlers {
    var disk: set<Path>
    var rows: map<Id, Path>
    var created: int
    var deleted: int

    constructor ()
      ensures View() == Stored({}, map[], 0, 0)
    {
      disk, rows, created, deleted := {}, map[], 0, 0;
    }

    ghost function View(): Stored
      reads this
    {
      Stored(disk, rows, created, deleted)
    }

    /**
     The handler's effects one after the other are one handler of the state machine, alone. When the row
     write fails, the snapshot stays on disk without a row, uncounted.
     */
    method CreateSnapshot(path: Path, id: Id, diskWorks: bool, rowWorks: bool) returns (ok: bool)
      modifies this
      ensures View() == StoredOf(Play(Resting(old(disk), old(rows), old(created), old(deleted)),
                                      CreateSteps(path, id, diskWorks, rowWorks)))
      ensures ok <==> diskWorks && rowWorks
      ensures disk == if diskWorks then old(disk) + {path} else old(disk)
      ensures rows == if ok then old(rows)[id := path] else old(rows)
      ensures created == old(created) + (if ok then 1 else 0) && deleted == old(deleted)
    {
      PlayThree(Resting(disk, rows, created, deleted),
                CreateDisk(0, path, diskWorks), CreateRow(0, id, rowWorks), CreateCount(0));
      if !diskWorks {
        return false;
      }
      disk := disk + {path};
      if !rowWorks {
        return false;
      }
      rows := rows[id := path];
      created := created + 1;
      return true;
    }

    /** The error of the row write is not looked at, so success says nothing about the row. */
    method DeleteSnapshot(id: Id, getWorks: bool, diskWorks: bool, rowWorks: bool) returns (success: bool)
      modifies this
      ensures View() == StoredOf(Play(Resting(old(disk), old(rows), old(created), old(deleted)),
                                      DeleteSteps(id, getWorks, diskWorks, rowWorks)))
      ensures success <==> getWorks && id in old(rows) && diskWorks && old(rows)[id] in old(disk)
      ensures disk == if success then old(disk) - {old(rows)[id]} else old(disk)
      ensures rows == if success && rowWorks then old(rows) - {id} else old(rows)
      ensures deleted == old(deleted) + (if success then 1 else 0) && created == old(created)
    {
      PlayFour(Resting(disk, rows, created, deleted),
               DeleteGet(0, id, getWorks), DeleteDisk(0, diskWorks), DeleteRow(0, rowWorks), DeleteCount(0));
      if !getWorks || id !in rows {
        return false;
      }
      var path := rows[id];
      if !diskWorks || path !in disk {
        return false;
      }
      disk := disk - {path};
      if rowWorks {
        rows := rows - {id};
      }
      deleted := deleted + 1;
      return true;
    }
  }
}
