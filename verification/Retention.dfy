/**
 Automatic snapshots and their retention: `execute` and `applyRetention` of
 internal/scheduler/scheduler.go over the disk operations of internal/btrfs/btrfs.go.

 A firing of a policy creates a snapshot, lists the subvolume and deletes the listing's suffix past
 the limit, one path after the other. The cron library gives each firing a goroutine of its own and
 `execute` takes no lock, so firings of policies that share a subvolume, or of one slow policy,
 overlap: a firing is cut into its creation, its listing and its single deletions, and a run is any
 interleaving of those of any number of firings.

 The code assumes that the listing is newest first; the order comes from the btrfs tool, so it is a
 parameter here, and both orders are followed through whole runs.
 */
module Retention {
  import Names = SnapshotNames
  import opened Sequences

  const DEFAULT_LIMIT: nat := 7

  /** `maxToKeep`: the daily retention, or seven when that is not positive. */
  function Limit(retentionDaily: int): (m: nat)
    ensures m >= 1
    ensures m == if retentionDaily > 0 then retentionDaily else DEFAULT_LIMIT
  {
    if retentionDaily <= 0 then DEFAULT_LIMIT else retentionDaily
  }

  /** The entries of a listing that retention leaves alone, and those it goes on to delete. */
  function Top<T>(listing: seq<T>, limit: nat): seq<T> {
    if |listing| <= limit then listing else listing[..limit]
  }

  function Past<T>(listing: seq<T>, limit: nat): seq<T> {
    if |listing| <= limit then [] else listing[limit..]
  }

  // ---------- One retention pass ----------

  /** The paths whose deletion fails, in order. */
  function Stuck<T(==)>(paths: seq<T>, fails: set<T>): seq<T> {
    if paths == [] then [] else
    Stuck(Front(paths), fails) + (if Last(paths) in fails then [Last(paths)] else [])
  }

  function Gone<T(==)>(paths: seq<T>, fails: set<T>): seq<T> {
    if paths == [] then [] else
    Gone(Front(paths), fails) + (if Last(paths) in fails then [] else [Last(paths)])
  }

  function Survivors<T(==)>(listing: seq<T>, limit: nat, fails: set<T>): seq<T> {
    Top(listing, limit) + Stuck(Past(listing, limit), fails)
  }

  function Deleted<T(==)>(listing: seq<T>, limit: nat, fails: set<T>): seq<T> {
    Gone(Past(listing, limit), fails)
  }

  lemma {:induction false} StuckAndGone<T>(paths: seq<T>, fails: set<T>)
    ensures multiset(Stuck(paths, fails)) + multiset(Gone(paths, fails)) == multiset(paths)
  {
    if paths != [] {
      StuckAndGone(Front(paths), fails);
      assert paths == Front(paths) + [Last(paths)];
    }
  }

  lemma {:induction false} StuckAreThoseThatFail<T>(paths: seq<T>, fails: set<T>)
    ensures forall p :: p in Stuck(paths, fails) <==> p in paths && p in fails
    ensures forall p :: p in Gone(paths, fails) <==> p in paths && p !in fails
  {
    if paths != [] {
      StuckAreThoseThatFail(Front(paths), fails);
      assert forall p :: p in paths <==> p in Front(paths) || p == Last(paths);
    }
  }

  lemma TopAndPast<T>(listing: seq<T>, limit: nat)
    ensures Top(listing, limit) + Past(listing, limit) == listing
    ensures forall i :: 0 <= i < |Top(listing, limit)| ==> i < limit && Top(listing, limit)[i] == listing[i]
    ensures forall i :: 0 <= i < |Past(listing, limit)| ==> Past(listing, limit)[i] == listing[limit + i]
  {
  }

  /**
   Whatever fails: nothing is lost or made up, the first entries stay in place, and of the rest exactly
   those stay whose deletion fails. Either order of the listing, and any policy.
   */
  lemma RetentionAccounts<T>(listing: seq<T>, limit: nat, fails: set<T>)
    ensures var kept, gone := Survivors(listing, limit, fails), Deleted(listing, limit, fails);
            && multiset(kept) + multiset(gone) == multiset(listing)
            && (|listing| <= limit ==> kept == listing)
            && (|listing| > limit ==>
                  && listing[..limit] <= kept
                  && (forall p :: p in kept[limit..] <==> p in listing[limit..] && p in fails)
                  && (forall p :: p in gone <==> p in listing[limit..] && p !in fails))
  {
    TopAndPast(listing, limit);
    StuckAndGone(Past(listing, limit), fails);
    StuckAreThoseThatFail(Past(listing, limit), fails);
    if |listing| > limit {
      assert Survivors(listing, limit, fails)[limit..] == Stuck(Past(listing, limit), fails);
    } else {
      assert listing + [] == listing;
    }
  }

  /** The first `m` entries are where they were, and of the others exactly those are left that would not go. */
  ghost predicate Keeps<T(!new)>(was: seq<T>, m: nat, fails: set<T>, left: seq<T>) {
    if |was| <= m then left == was
    else was[..m] <= left && forall p :: p in left[m..] <==> p in was[m..] && p in fails
  }

  lemma SurvivorsKeep<T(!new)>(was: seq<T>, m: nat, fails: set<T>)
    ensures Keeps(was, m, fails, Survivors(was, m, fails))
  {
    RetentionAccounts(was, m, fails);
  }

  lemma OneMoreEntry<T>(listing: seq<T>, limit: nat, fails: set<T>)
    requires |listing| > limit
    ensures Survivors(listing, limit, fails) ==
            Survivors(Front(listing), limit, fails) + (if Last(listing) in fails then [Last(listing)] else [])
  {
    assert Front(Past(listing, limit)) == Past(Front(listing), limit);
    assert Top(Front(listing), limit) == Top(listing, limit);
  }

  /** And they stay in the order in which they were listed. */
  lemma {:induction false} SurvivorsInOrder<T>(listing: seq<T>, limit: nat, fails: set<T>) returns (at: seq<int>)
    ensures |at| == |Survivors(listing, limit, fails)|
    ensures forall k :: 0 <= k < |at| ==>
              0 <= at[k] < |listing| && listing[at[k]] == Survivors(listing, limit, fails)[k]
    ensures forall j, k :: 0 <= j < k < |at| ==> at[j] < at[k]
  {
    if |listing| <= limit {
      assert Survivors(listing, limit, fails) == listing;
      at := seq(|listing|, i => i);
    } else {
      var before := SurvivorsInOrder(Front(listing), limit, fails);
      OneMoreEntry(listing, limit, fails);
      at := before + if Last(listing) in fails then [|listing| - 1] else [];
    }
  }

  // ---------- Firings that overlap ----------

  /** One call of `execute`. */
  type Firing = int

  datatype Stage =
    | Created(limit: nat)             // its snapshot is there, its listing is to come
    | Deleting(todo: seq<string>)     // the paths its loop has yet to try

  datatype Order = NewestFirst | OldestFirst

  /**
   The paths of all snapshots ever made, in the order of their making, and for each path the number
   of the snapshot last made there; the paths held now; those whose deletion has failed; the firings
   under way and those that have ended.
   */
  datatype State = State(
    made: seq<string>,
    born: map<string, int>,
    held: set<string>,
    stuck: set<string>,
    active: map<Firing, Stage>,
    over: set<Firing>)

  datatype Step =
    | Create(f: Firing, path: string, retentionDaily: int, works: bool)
    | List(f: Firing, works: bool, listing: seq<string>)
    | Delete(f: Firing, works: bool)     // one turn of the deletion loop

  const EMPTY := State([], map[], {}, {}, map[], {})

  predicate Precedes(order: Order, s: State, p: string, q: string) {
    && p in s.born && q in s.born
    && (if order.NewestFirst? then s.born[p] > s.born[q] else s.born[p] < s.born[q])
  }

  /** What the tool lists: each path held, once, in the order of making or against it. */
  ghost predicate IsListing(order: Order, s: State, listing: seq<string>) {
    && (forall p :: p in s.held <==> p in listing)
    && (forall i, j :: 0 <= i < j < |listing| ==> Precedes(order, s, listing[i], listing[j]))
  }

  predicate Plans(stage: Stage, p: string) {
    stage.Deleting? && p in stage.todo
  }

  /** Some firing under way still means to delete this path. */
  ghost predicate Planned(s: State, p: string) {
    exists f :: f in s.active && Plans(s.active[f], p)
  }

  /** A snapshot is made where there is none, and where no firing under way means to delete one. */
  ghost predicate Enabled(order: Order, s: State, step: Step) {
    match step
    case Create(f, path, _, works) =>
      && f !in s.active && f !in s.over
      && (works ==> path !in s.held && !Planned(s, path))
    case List(f, works, listing) =>
      f in s.active && s.active[f].Created? && (works ==> IsListing(order, s, listing))
    case Delete(f, _) => f in s.active && s.active[f].Deleting? && s.active[f].todo != []
  }

  /** The loop goes on, or the firing ends. */
  function WithTodo(s: State, f: Firing, todo: seq<string>): State {
    if todo == [] then s.(active := s.active - {f}, over := s.over + {f})
    else s.(active := s.active[f := Deleting(todo)])
  }

  /** The deletion of a path: of one held no more it fails without effect. */
  function Tried(s: State, p: string, works: bool): State {
    if p !in s.held then s
    else if works then s.(held := s.held - {p}) else s.(stuck := s.stuck + {p})
  }

  function Apply(s: State, step: Step): State {
    match step
    case Create(f, path, retentionDaily, works) =>
      if works
      then State(s.made + [path], s.born[path := |s.made|], s.held + {path}, s.stuck - {path},
                 s.active[f := Created(Limit(retentionDaily))], s.over)
      else s.(over := s.over + {f})
    case List(f, works, listing) =>
      if f !in s.active || !s.active[f].Created? then s
      else WithTodo(s, f, if works then Past(listing, s.active[f].limit) else [])
    case Delete(f, works) =>
      if f !in s.active || !s.active[f].Deleting? || s.active[f].todo == [] then s
      else WithTodo(Tried(s, s.active[f].todo[0], works), f, s.active[f].todo[1..])
  }

  function Play(s: State, run: seq<Step>): State {
    if run == [] then s else Apply(Play(s, Front(run)), Last(run))
  }

  ghost predicate Legal(order: Order, s: State, run: seq<Step>) {
    run != [] ==> Legal(order, s, Front(run)) && Enabled(order, Play(s, Front(run)), Last(run))
  }

  /** What a run from an empty subvolume comes to; snapshots found there at first are creations without a listing. */
  function After(run: seq<Step>): State {
    Play(EMPTY, run)
  }

  // ---------- What every state keeps ----------

  /** Paths have the numbers they were made under, and firings only plan on paths there have been. */
  ghost predicate Sound(s: State) {
    && (forall p :: p in s.born ==> 0 <= s.born[p] < |s.made| && s.made[s.born[p]] == p)
    && s.held <= s.born.Keys
    && (s.active != map[] ==> s.made != [])
    && (forall f :: f in s.active ==> f !in s.over)
    && (forall f, p :: f in s.active && Plans(s.active[f], p) ==> p in s.born)
  }

  /** After a turn of the loop, a firing still plans on what it planned on, but for the path it has tried. */
  lemma PlansAfterDelete(s: State, f: Firing, works: bool)
    requires f in s.active && s.active[f].Deleting? && s.active[f].todo != []
    ensures var r := Apply(s, Delete(f, works));
            && (forall g, q :: g in r.active && Plans(r.active[g], q) ==> g in s.active && Plans(s.active[g], q))
            && (forall g, q :: (g in s.active && Plans(s.active[g], q) && !(g == f && q == s.active[f].todo[0])) ==>
                  g in r.active && Plans(r.active[g], q))
  {
    var todo := s.active[f].todo;
    assert forall q :: q in todo <==> q == todo[0] || q in todo[1..];
  }

  lemma SoundPerStep(order: Order, s: State, step: Step)
    requires Sound(s) && Enabled(order, s, step)
    ensures Sound(Apply(s, step))
  {
    match step
    case Create(f, path, retentionDaily, works) => SoundAfterCreate(order, s, f, path, retentionDaily, works);
    case List(f, works, listing) => SoundAfterList(order, s, f, works, listing);
    case Delete(f, works) => SoundAfterDelete(order, s, f, works);
  }

  lemma SoundAfterCreate(order: Order, s: State, f: Firing, path: string, retentionDaily: int, works: bool)
    requires Sound(s) && Enabled(order, s, Create(f, path, retentionDaily, works))
    ensures Sound(Apply(s, Create(f, path, retentionDaily, works)))
  {
  }

  lemma SoundAfterList(order: Order, s: State, f: Firing, works: bool, listing: seq<string>)
    requires Sound(s) && Enabled(order, s, List(f, works, listing))
    ensures Sound(Apply(s, List(f, works, listing)))
  {
  }

  lemma SoundAfterDelete(order: Order, s: State, f: Firing, works: bool)
    requires Sound(s) && Enabled(order, s, Delete(f, works))
    ensures Sound(Apply(s, Delete(f, works)))
  {
    PlansAfterDelete(s, f, works);
  }

  lemma {:induction false} SoundAlways(order: Order, run: seq<Step>)
    requires Legal(order, EMPTY, run)
    ensures Sound(After(run))
  {
    if run != [] {
      SoundAlways(order, Front(run));
      SoundPerStep(order, After(Front(run)), Last(run));
    }
  }

  /** The k-th snapshot ever made is there. */
  predicate Holds(s: State, k: int) {
    0 <= k < |s.made| && s.made[k] in s.held && s.made[k] in s.born && s.born[s.made[k]] == k
  }

  // ---------- Newest first: no gaps ----------

  predicate Older(s: State, q: string, p: string)
    requires p in s.born
  {
    q in s.held && q in s.born && s.born[q] < s.born[p]
  }

  /** A firing that means to delete a path means to delete every older one, save those that would not go. */
  ghost predicate PlansReachDown(s: State) {
    forall f, p, q :: (f in s.active && Plans(s.active[f], p) && p in s.born && Older(s, q, p)) ==>
      Plans(s.active[f], q) || q in s.stuck
  }

  /** A path older than a snapshot now missing is about to go as well, or would not go. */
  ghost predicate GapsAreClosing(s: State) {
    forall k, q :: (0 <= k < |s.made| && !Holds(s, k) && q in s.held && q in s.born && s.born[q] < k) ==>
      Planned(s, q) || q in s.stuck
  }

  ghost predicate Closing(s: State) {
    Sound(s) && PlansReachDown(s) && GapsAreClosing(s)
  }


  lemma ClosingAfterCreate(s: State, f: Firing, path: string, retentionDaily: int, works: bool)
    requires Closing(s) && Enabled(NewestFirst, s, Create(f, path, retentionDaily, works))
    ensures Closing(Apply(s, Create(f, path, retentionDaily, works)))
  {
    var r := Apply(s, Create(f, path, retentionDaily, works));
    forall k, q | 0 <= k < |r.made| && !Holds(r, k) && q in r.held && q in r.born && r.born[q] < k
      ensures Planned(r, q) || q in r.stuck
    {
      assert Holds(s, k) ==> Holds(r, k);
      if works {
        assert k != |s.made| by {
          assert Holds(r, |s.made|);
        }
      }
      if g :| g in s.active && Plans(s.active[g], q) {
        assert g in r.active && Plans(r.active[g], q);
      }
    }
  }

  lemma ClosingAfterList(s: State, f: Firing, works: bool, listing: seq<string>)
    requires Closing(s) && Enabled(NewestFirst, s, List(f, works, listing))
    ensures Closing(Apply(s, List(f, works, listing)))
  {
    var r := Apply(s, List(f, works, listing));
    SoundPerStep(NewestFirst, s, List(f, works, listing));
    forall k, q | 0 <= k < |r.made| && !Holds(r, k) && q in r.held && q in r.born && r.born[q] < k
      ensures Planned(r, q) || q in r.stuck
    {
      assert !Holds(s, k);
      if g :| g in s.active && Plans(s.active[g], q) {
        assert g in r.active && Plans(r.active[g], q);
      }
    }
  }

  lemma ClosingAfterDelete(s: State, f: Firing, works: bool)
    requires Closing(s) && Enabled(NewestFirst, s, Delete(f, works))
    ensures Closing(Apply(s, Delete(f, works)))
  {
    var r := Apply(s, Delete(f, works));
    var todo := s.active[f].todo;
    SoundPerStep(NewestFirst, s, Delete(f, works));
    assert Plans(s.active[f], todo[0]);
    PlansAfterDelete(s, f, works);
    forall k, q | 0 <= k < |r.made| && !Holds(r, k) && q in r.held && q in r.born && r.born[q] < k
      ensures Planned(r, q) || q in r.stuck
    {
      if Holds(s, k) {
        assert s.made[k] == todo[0] && Older(s, q, todo[0]);
        assert q in r.stuck || (f in s.active && Plans(s.active[f], q));
        assert q in r.stuck || (f in r.active && Plans(r.active[f], q));
      } else if g :| g in s.active && Plans(s.active[g], q) {
        assert q in r.stuck || (g in r.active && Plans(r.active[g], q));
      }
    }
  }

  lemma {:induction false} ClosingAlways(run: seq<Step>)
    requires Legal(NewestFirst, EMPTY, run)
    ensures Closing(After(run))
  {
    if run != [] {
      var s := After(Front(run));
      ClosingAlways(Front(run));
      match Last(run)
      case Create(f, path, retentionDaily, works) => ClosingAfterCreate(s, f, path, retentionDaily, works);
      case List(f, works, listing) => ClosingAfterList(s, f, works, listing);
      case Delete(f, works) => ClosingAfterDelete(s, f, works);
    }
  }

  /** The latest of all snapshots ever made, latest first and with no gap. */
  predicate IsNewestRun(listing: seq<string>, made: seq<string>) {
    |listing| <= |made| && forall i :: 0 <= i < |listing| ==> listing[i] == made[|made| - 1 - i]
  }

  /** A snapshot numbered between two neighbours of a listing is not there. */
  lemma NothingBetween(s: State, listing: seq<string>, i: nat, k: int)
    requires Sound(s) && IsListing(NewestFirst, s, listing) && i < |listing|
    requires listing[i] in s.born && s.born[listing[i]] < k
    requires i > 0 ==> listing[i - 1] in s.born && k < s.born[listing[i - 1]]
    ensures !Holds(s, k)
  {
    forall j | 0 <= j < |listing| ensures listing[j] in s.born && s.born[listing[j]] != k {
      assert listing[j] in s.held;
      if j < i {
        assert j < i - 1 ==> Precedes(NewestFirst, s, listing[j], listing[i - 1]);
      } else {
        assert j > i ==> Precedes(NewestFirst, s, listing[i], listing[j]);
      }
    }
  }

  lemma {:induction false} NewestInPlace(s: State, listing: seq<string>, i: nat)
    requires Closing(s) && s.active == map[] && s.held !! s.stuck
    requires IsListing(NewestFirst, s, listing) && i < |listing|
    ensures i < |s.made| && s.born[listing[i]] == |s.made| - 1 - i && listing[i] == s.made[|s.made| - 1 - i]
  {
    var p, k := listing[i], |s.made| - 1 - i;
    assert p in s.held;
    if i > 0 {
      NewestInPlace(s, listing, i - 1);
      assert Precedes(NewestFirst, s, listing[i - 1], p);
    }
    if s.born[p] < k {
      NothingBetween(s, listing, i, k);
      assert false;
    }
  }

  /**
   Newest first: however firings of any policies overlap, and whichever creations and listings fail, a
   snapshot that outlives a newer one is one whose deletion failed, as soon as no firing is under way.
   */
  lemma OnlyStuckOnesOutliveNewer(run: seq<Step>, k: int, p: string)
    requires Legal(NewestFirst, EMPTY, run) && After(run).active == map[]
    requires var s := After(run); 0 <= k < |s.made| && !Holds(s, k) && p in s.held && p in s.born && s.born[p] < k
    ensures p in After(run).stuck
  {
    ClosingAlways(run);
    assert !Planned(After(run), p);
  }

  /** So if nothing is stuck, what is left is a prefix of the whole history, newest first, with no gap. */
  lemma NewestRunSurvives(run: seq<Step>, left: seq<string>)
    requires Legal(NewestFirst, EMPTY, run) && After(run).active == map[]
    requires IsListing(NewestFirst, After(run), left) && After(run).held !! After(run).stuck
    ensures IsNewestRun(left, After(run).made)
  {
    ClosingAlways(run);
    if left != [] {
      NewestInPlace(After(run), left, |left| - 1);
    }
    forall i | 0 <= i < |left| ensures i < |After(run).made| && left[i] == After(run).made[|After(run).made| - 1 - i] {
      NewestInPlace(After(run), left, i);
    }
  }

  // ---------- What limits protect ----------

  ghost predicate LimitsAtLeast(run: seq<Step>, m: nat) {
    forall i :: 0 <= i < |run| && run[i].Create? ==> Limit(run[i].retentionDaily) >= m
  }

  /** Number k is among the m that come first in a listing of everything ever made. */
  predicate Spared(order: Order, s: State, m: nat, k: int) {
    0 <= k < |s.made| && if order.NewestFirst? then |s.made| - m <= k else k < m
  }

  ghost predicate SparesThem(order: Order, s: State, m: nat) {
    && (forall f :: f in s.active && s.active[f].Created? ==> s.active[f].limit >= m)
    && (forall f, p :: f in s.active && Plans(s.active[f], p) && p in s.born ==> !Spared(order, s, m, s.born[p]))
    && (forall k :: Spared(order, s, m, k) ==> Holds(s, k))
  }

  /** The i-th entry of a listing has at least i on its far side among all ever made. */
  lemma {:induction false} RankInListing(order: Order, s: State, listing: seq<string>, i: nat)
    requires Sound(s) && IsListing(order, s, listing) && i < |listing|
    ensures if order.NewestFirst? then s.born[listing[i]] <= |s.made| - 1 - i else s.born[listing[i]] >= i
  {
    assert listing[i] in s.held;
    if i > 0 {
      RankInListing(order, s, listing, i - 1);
      assert Precedes(order, s, listing[i - 1], listing[i]);
    }
  }

  lemma SparesAfterList(order: Order, s: State, m: nat, f: Firing, works: bool, listing: seq<string>)
    requires Sound(s) && SparesThem(order, s, m) && Enabled(order, s, List(f, works, listing))
    ensures SparesThem(order, Apply(s, List(f, works, listing)), m)
  {
    var r, limit := Apply(s, List(f, works, listing)), s.active[f].limit;
    assert forall k :: Spared(order, r, m, k) <==> Spared(order, s, m, k);
    assert forall k :: Holds(r, k) <==> Holds(s, k);
    if works {
      forall p | p in Past(listing, limit) ensures p in s.born && !Spared(order, s, m, s.born[p]) {
        var i :| 0 <= i < |Past(listing, limit)| && Past(listing, limit)[i] == p;
        assert listing[limit + i] in s.held;
        RankInListing(order, s, listing, limit + i);
      }
    }
  }

  lemma SparesAfterDelete(order: Order, s: State, m: nat, f: Firing, works: bool)
    requires Sound(s) && SparesThem(order, s, m) && Enabled(order, s, Delete(f, works))
    ensures SparesThem(order, Apply(s, Delete(f, works)), m)
  {
    var r := Apply(s, Delete(f, works));
    PlansAfterDelete(s, f, works);
    assert Plans(s.active[f], s.active[f].todo[0]);
    forall k | Spared(order, r, m, k) ensures Holds(r, k) {
      assert Spared(order, s, m, k) && Holds(s, k);
    }
  }

  lemma SparesAfterCreate(order: Order, s: State, m: nat, f: Firing, path: string, retentionDaily: int, works: bool)
    requires Sound(s) && SparesThem(order, s, m) && Limit(retentionDaily) >= m
    requires Enabled(order, s, Create(f, path, retentionDaily, works))
    ensures SparesThem(order, Apply(s, Create(f, path, retentionDaily, works)), m)
  {
    var r := Apply(s, Create(f, path, retentionDaily, works));
    forall k | Spared(order, r, m, k) ensures Holds(r, k) {
      if k < |s.made| {
        assert Spared(order, s, m, k) && Holds(s, k);
      }
    }
    forall g, p | g in r.active && Plans(r.active[g], p) && p in r.born ensures !Spared(order, r, m, r.born[p]) {
      assert g in s.active && Plans(s.active[g], p) && p in s.born;
      assert Planned(s, p);
    }
  }

  lemma {:induction false} SparesAlways(order: Order, run: seq<Step>, m: nat)
    requires Legal(order, EMPTY, run) && LimitsAtLeast(run, m)
    ensures SparesThem(order, After(run), m)
  {
    if run != [] {
      var s := After(Front(run));
      SoundAlways(order, Front(run));
      assert forall i :: 0 <= i < |Front(run)| ==> Front(run)[i] == run[i];
      SparesAlways(order, Front(run), m);
      match Last(run)
      case Create(f, path, retentionDaily, works) =>
        assert run[|run| - 1].Create?;
        SparesAfterCreate(order, s, m, f, path, retentionDaily, works);
      case List(f, works, listing) => SparesAfterList(order, s, m, f, works, listing);
      case Delete(f, works) => SparesAfterDelete(order, s, m, f, works);
    }
  }

  /**
   Whatever overlaps and whatever fails, at every moment: policies whose limits are all at least m never
   delete one of the m newest snapshots when the tool lists newest first, and never one of the first m
   ever made when it lists oldest first.
   */
  lemma LimitsProtect(order: Order, run: seq<Step>, m: nat, k: int)
    requires Legal(order, EMPTY, run) && LimitsAtLeast(run, m) && Spared(order, After(run), m, k)
    ensures Holds(After(run), k)
  {
    SparesAlways(order, run, m);
  }

  // ---------- What an ended firing leaves ----------

  /** Of what a firing has listed, only the top is left, and what it has yet to try or could not delete. */
  ghost predicate TrimmedTo(s: State, f: Firing, top: seq<string>, n: nat) {
    && n <= |s.made|
    && (if f in s.active then s.active[f].Deleting? else f in s.over)
    && (forall p :: p in s.held ==>
          p in top || (p in s.born && n <= s.born[p]) || p in s.stuck || (f in s.active && Plans(s.active[f], p)))
  }

  lemma TrimmedPerStep(order: Order, s: State, step: Step, f: Firing, top: seq<string>, n: nat)
    requires Sound(s) && Enabled(order, s, step) && TrimmedTo(s, f, top, n)
    ensures TrimmedTo(Apply(s, step), f, top, n)
  {
    match step
    case Create(_, _, _, _) =>
    case List(_, _, _) =>
    case Delete(g, works) => PlansAfterDelete(s, g, works);
  }

  lemma {:induction false} ListingTrims(order: Order, run: seq<Step>, i: nat, f: Firing, listing: seq<string>)
    requires Legal(order, EMPTY, run) && i < |run| && run[i] == List(f, true, listing)
    ensures var s := After(run[..i]);
            && s.made != [] && f in s.active && s.active[f].Created? && IsListing(order, s, listing)
            && TrimmedTo(After(run), f, Top(listing, s.active[f].limit), |s.made|)
  {
    SoundAlways(order, Front(run));
    if i == |run| - 1 {
      assert run[..i] == Front(run);
      var s := After(run[..i]);
      TopAndPast(listing, s.active[f].limit);
      assert forall p :: p in listing ==> p in Top(listing, s.active[f].limit) + Past(listing, s.active[f].limit);
    } else {
      assert Front(run)[i] == run[i] && Front(run)[..i] == run[..i];
      ListingTrims(order, Front(run), i, f, listing);
      var s := After(run[..i]);
      TrimmedPerStep(order, After(Front(run)), Last(run), f, Top(listing, s.active[f].limit), |s.made|);
    }
  }

  /** Distinct elements of a sequence are no more than its length. */
  lemma {:induction false} FitsInto<T>(a: seq<T>, b: seq<T>)
    requires forall i, j :: 0 <= i < j < |a| ==> a[i] != a[j]
    requires forall i :: 0 <= i < |a| ==> a[i] in b
    ensures |a| <= |b|
  {
    if a != [] {
      var n := |a| - 1;
      assert a[n] in b;
      var j :| 0 <= j < |b| && b[j] == a[n];
      var rest := b[..j] + b[j + 1..];
      forall i | 0 <= i < n ensures a[i] in rest {
        var k :| 0 <= k < |b| && b[k] == a[i];
        assert k != j;
        assert rest[if k < j then k else k - 1] == b[k];
      }
      FitsInto(a[..n], rest);
    }
  }

  /**
   Either order, whatever overlaps: when a firing has ended, everything left was among the first entries
   it listed, up to its limit, or was made after it listed, or would not go. If nothing is stuck there
   are at most as many as the limit and the later creations together.
   */
  lemma FiringTrims(order: Order, run: seq<Step>, i: nat, f: Firing, listing: seq<string>, left: seq<string>)
    requires Legal(order, EMPTY, run) && i < |run| && run[i] == List(f, true, listing) && f in After(run).over
    requires IsListing(order, After(run), left)
    ensures var s, r := After(run[..i]), After(run);
            && f in s.active && s.active[f].Created? && |s.made| <= |r.made|
            && var limit := s.active[f].limit;
            && (forall p :: p in left ==> p in Top(listing, limit) || p in r.made[|s.made|..] || p in r.stuck)
            && (r.held !! r.stuck ==> |left| <= limit + |r.made| - |s.made|)
  {
    ListingTrims(order, run, i, f, listing);
    SoundAlways(order, run);
    var s := After(run[..i]);
    WhatIsLeft(order, After(run), f, Top(listing, s.active[f].limit), |s.made|, left);
  }

  lemma WhatIsLeft(order: Order, r: State, f: Firing, top: seq<string>, n: nat, left: seq<string>)
    requires Sound(r) && TrimmedTo(r, f, top, n) && f in r.over && IsListing(order, r, left)
    ensures forall p :: p in left ==> p in top || p in r.made[n..] || p in r.stuck
    ensures r.held !! r.stuck ==> |left| <= |top| + |r.made| - n
  {
    forall p | p in left ensures p in top || p in r.made[n..] || p in r.stuck {
      if n <= r.born[p] {
        assert r.made[n..][r.born[p] - n] == p;
      }
    }
    if r.held !! r.stuck {
      CountListing(order, r, left, top + r.made[n..]);
    }
  }

  lemma CountListing(order: Order, s: State, listing: seq<string>, all: seq<string>)
    requires Sound(s) && IsListing(order, s, listing) && forall p :: p in listing ==> p in all
    ensures |listing| <= |all|
  {
    forall j, k | 0 <= j < k < |listing| ensures listing[j] != listing[k] {
      assert Precedes(order, s, listing[j], listing[k]);
    }
    FitsInto(listing, all);
  }

  /**
   Newest first, at rest with nothing stuck: if nothing was made since a firing listed, what is left is
   the newest run of the history, it is within that firing's limit, and the latest snapshot is in it.
   */
  lemma LastFiringTrims(run: seq<Step>, i: nat, f: Firing, listing: seq<string>, left: seq<string>)
    requires Legal(NewestFirst, EMPTY, run) && i < |run| && run[i] == List(f, true, listing)
    requires After(run).active == map[] && After(run).made == After(run[..i]).made
    requires IsListing(NewestFirst, After(run), left) && After(run).held !! After(run).stuck
    ensures var s, r := After(run[..i]), After(run);
            && f in s.active && s.active[f].Created?
            && IsNewestRun(left, r.made) && 1 <= |left| <= s.active[f].limit && r.made != [] && left[0] == Last(r.made)
  {
    ListingTrims(NewestFirst, run, i, f, listing);
    FiringTrims(NewestFirst, run, i, f, listing, left);
    NewestRunSurvives(run, left);
    LimitsProtect(NewestFirst, run, 1, |After(run).made| - 1);
    assert After(run).made[|After(run).made| - 1] in left;
  }

  // ---------- Which snapshots are left ----------

  /** Step `i` is a listing that works, of a firing that has made its snapshot. */
  predicate Lists(run: seq<Step>, i: int) {
    && 0 <= i < |run| && run[i].List? && run[i].works
    && run[i].f in After(run[..i]).active && After(run[..i]).active[run[i].f].Created?
  }

  function LimitAt(run: seq<Step>, i: int): nat
    requires Lists(run, i)
  {
    After(run[..i]).active[run[i].f].limit
  }

  /** The limit of a firing under way is its policy's daily retention, or seven when that is not positive. */
  lemma {:induction false} LimitIsThePolicys(run: seq<Step>, f: Firing) returns (c: int)
    requires f in After(run).active && After(run).active[f].Created?
    ensures 0 <= c < |run| && run[c].Create? && run[c].f == f && run[c].works
    ensures After(run).active[f].limit == if run[c].retentionDaily <= 0 then 7 else run[c].retentionDaily
  {
    var s := After(Front(run));
    assert run[|run| - 1] == Last(run);
    if Last(run).Create? && Last(run).f == f && Last(run).works {
      c := |run| - 1;
    } else {
      c := LimitIsThePolicys(Front(run), f);
      assert Front(run)[c] == run[c];
    }
  }

  /** By the time of step `i`, a listing, at least its firing's limit of snapshots were made after number `k`. */
  predicate Overtakes(run: seq<Step>, i: int, k: int) {
    Lists(run, i) && k < |After(run[..i]).made| - LimitAt(run, i)
  }

  ghost predicate Overtaken(run: seq<Step>, k: int) {
    exists i :: Overtakes(run, i, k)
  }

  /** Number `k` is there, and nobody means to delete it. */
  ghost predicate Untouched(s: State, k: int) {
    Holds(s, k) && !Planned(s, s.made[k])
  }

  lemma UntouchedAfterList(s: State, f: Firing, works: bool, listing: seq<string>, k: int)
    requires Sound(s) && Enabled(NewestFirst, s, List(f, works, listing)) && Untouched(s, k)
    requires works ==> k >= |s.made| - s.active[f].limit
    ensures Untouched(Apply(s, List(f, works, listing)), k)
  {
    var r, limit := Apply(s, List(f, works, listing)), s.active[f].limit;
    forall i | 0 <= i < |Past(listing, limit)| && works ensures Past(listing, limit)[i] != s.made[k] {
      RankInListing(NewestFirst, s, listing, limit + i);
    }
    forall g | g in r.active && Plans(r.active[g], s.made[k]) ensures g in s.active && Plans(s.active[g], s.made[k]) {
    }
  }

  lemma UntouchedAfterDelete(s: State, f: Firing, works: bool, k: int)
    requires Enabled(NewestFirst, s, Delete(f, works)) && Untouched(s, k)
    ensures Untouched(Apply(s, Delete(f, works)), k)
  {
    PlansAfterDelete(s, f, works);
    assert Plans(s.active[f], s.active[f].todo[0]);
  }

  lemma UntouchedAfterCreate(s: State, f: Firing, path: string, retentionDaily: int, works: bool, k: int)
    requires Sound(s) && Enabled(NewestFirst, s, Create(f, path, retentionDaily, works))
    requires Untouched(s, k) || (works && k == |s.made|)
    ensures Untouched(Apply(s, Create(f, path, retentionDaily, works)), k)
  {
    var r := Apply(s, Create(f, path, retentionDaily, works));
    forall g | g in r.active && Plans(r.active[g], r.made[k]) ensures g in s.active && Plans(s.active[g], r.made[k]) {
    }
  }

  lemma OvertakesLater(run: seq<Step>, i: int, k: int)
    requires run != [] && Overtakes(Front(run), i, k)
    ensures Overtakes(run, i, k)
  {
    assert Front(run)[..i] == run[..i] && Front(run)[i] == run[i];
  }

  /** At every moment, whatever overlaps and whatever fails: a snapshot that no listing has overtaken is there. */
  lemma {:induction false} NotOvertakenIsThere(run: seq<Step>, k: int)
    requires Legal(NewestFirst, EMPTY, run) && 0 <= k < |After(run).made| && !Overtaken(run, k)
    ensures Untouched(After(run), k)
  {
    if run != [] {
      var s, n := After(Front(run)), |run| - 1;
      SoundAlways(NewestFirst, Front(run));
      if k < |s.made| {
        if i :| Overtakes(Front(run), i, k) {
          OvertakesLater(run, i, k);
        }
        NotOvertakenIsThere(Front(run), k);
      }
      assert run[..n] == Front(run) && run[n] == Last(run) && !Overtakes(run, n, k);
      match Last(run)
      case Create(f, path, retentionDaily, works) => UntouchedAfterCreate(s, f, path, retentionDaily, works, k);
      case List(f, works, listing) => UntouchedAfterList(s, f, works, listing, k);
      case Delete(f, works) => UntouchedAfterDelete(s, f, works, k);
    }
  }

  /** A path that is there at rest leaves no gap above it, so all made since are there with it. */
  lemma AllSinceAreThere(run: seq<Step>, k: int, j: int)
    requires Legal(NewestFirst, EMPTY, run) && After(run).active == map[] && After(run).held !! After(run).stuck
    requires Holds(After(run), k) && k <= j < |After(run).made|
    ensures Holds(After(run), j)
  {
    var s := After(run);
    if !Holds(s, j) {
      OnlyStuckOnesOutliveNewer(run, j, s.made[k]);
    }
  }

  lemma OvertakenIsGone(run: seq<Step>, i: int, k: int)
    requires Legal(NewestFirst, EMPTY, run) && After(run).active == map[] && After(run).held !! After(run).stuck
    requires 0 <= k < |After(run).made| && Overtakes(run, i, k)
    ensures !Holds(After(run), k)
  {
    var f, listing := run[i].f, run[i].listing;
    ListingTrims(NewestFirst, run, i, f, listing);
    var r, limit, n := After(run), LimitAt(run, i), |After(run[..i]).made|;
    if Holds(r, k) {
      var since, top := r.made[k..n], Top(listing, limit);
      forall j | k <= j < n ensures Holds(r, j) && r.made[j] in top {
        AllSinceAreThere(run, k, j);
      }
      forall a, b | 0 <= a < b < |since| ensures since[a] != since[b] {
        assert Holds(r, k + a) && Holds(r, k + b);
      }
      FitsInto(since, top);
    }
  }

  /**
   Which snapshots are left, exactly. Newest first, when no firing is under way and nothing is stuck,
   however firings have overlapped: the k-th snapshot ever made is there exactly when no listing has
   overtaken it, that is when at each listing fewer than that firing's limit had been made after it.
   */
  lemma LeftUnlessOvertaken(run: seq<Step>, k: int)
    requires Legal(NewestFirst, EMPTY, run) && After(run).active == map[] && After(run).held !! After(run).stuck
    requires 0 <= k < |After(run).made|
    ensures Holds(After(run), k) <==> !Overtaken(run, k)
  {
    if i :| Overtakes(run, i, k) {
      OvertakenIsGone(run, i, k);
    } else {
      NotOvertakenIsThere(run, k);
    }
  }

  lemma {:induction false} MadeGrows(run: seq<Step>, i: nat)
    requires i <= |run|
    ensures After(run[..i]).made <= After(run).made
  {
    if i == |run| {
      assert run[..i] == run;
    } else {
      assert Front(run)[..i] == run[..i];
      MadeGrows(Front(run), i);
    }
  }

  /**
   So a firing keeps its own snapshot exactly when, at its own listing and at each one since its creation,
   fewer than the listing firing's limit had been made after it.
   */
  lemma OwnSnapshotStays(run: seq<Step>, c: nat, f: Firing, path: string, retentionDaily: int)
    requires Legal(NewestFirst, EMPTY, run) && After(run).active == map[] && After(run).held !! After(run).stuck
    requires c < |run| && run[c] == Create(f, path, retentionDaily, true)
    ensures var k := |After(run[..c]).made|;
            && k < |After(run).made| && After(run).made[k] == path
            && (Holds(After(run), k) <==>
                  forall i :: c < i < |run| && Lists(run, i) ==> |After(run[..i]).made| - 1 - k < LimitAt(run, i))
  {
    var k := |After(run[..c]).made|;
    assert Front(run[..c + 1]) == run[..c];
    assert After(run[..c + 1]).made == After(run[..c]).made + [path];
    MadeGrows(run, c + 1);
    LeftUnlessOvertaken(run, k);
    forall i | 0 <= i < |run| && Overtakes(run, i, k) ensures c < i {
      if i <= c {
        assert run[..c][..i] == run[..i];
        MadeGrows(run[..c], i);
      }
    }
    if !Overtaken(run, k) {
      forall i | c < i < |run| && Lists(run, i) ensures |After(run[..i]).made| - 1 - k < LimitAt(run, i) {
        assert !Overtakes(run, i, k);
      }
    }
  }

  // ---------- Runs that lose a snapshot ----------

  lemma OneMoreStep(order: Order, run: seq<Step>, step: Step)
    ensures After(run + [step]) == Apply(After(run), step)
    ensures Legal(order, EMPTY, run + [step]) <==> Legal(order, EMPTY, run) && Enabled(order, After(run), step)
  {
    assert Front(run + [step]) == run && Last(run + [step]) == step;
  }

  /** Two firings have created, the second after the first. */
  lemma TwoCreations(a: Step, b: Step)
    requires a == Create(0, "a", 1, true) && b == Create(1, "b", 1, true)
    ensures Legal(NewestFirst, EMPTY, [a] + [b])
    ensures After([a] + [b]) ==
            State(["a", "b"], map["a" := 0, "b" := 1], {"a", "b"}, {}, map[0 := Created(1), 1 := Created(1)], {})
    ensures IsListing(NewestFirst, After([a] + [b]), ["b", "a"])
  {
    OneMoreStep(NewestFirst, [], a);
    OneMoreStep(NewestFirst, [a], b);
    assert [] + [a] == [a];
    assert After([a]) == State(["a"], map["a" := 0], {"a"}, {}, map[0 := Created(1)], {});
  }

  /**
   A firing need not keep its own snapshot: with limit one, another creation before its listing is enough.
   Nothing is made after it has listed, nothing is stuck, and the run comes to rest.
   */
  lemma OwnSnapshotCanGo()
    ensures var run := [Create(0, "a", 1, true)] + [Create(1, "b", 1, true)] + [List(0, true, ["b", "a"])] +
                       [Delete(0, true)] + [List(1, true, ["b"])];
            && Legal(NewestFirst, EMPTY, run)
            && After(run) == State(["a", "b"], map["a" := 0, "b" := 1], {"b"}, {}, map[], {0, 1})
            && Overtakes(run, 2, 0)
  {
    var a, b, c, d := Create(0, "a", 1, true), Create(1, "b", 1, true), List(0, true, ["b", "a"]), Delete(0, true);
    var e := List(1, true, ["b"]);
    TwoCreations(a, b);
    OneMoreStep(NewestFirst, [a] + [b], c);
    OneMoreStep(NewestFirst, [a] + [b] + [c], d);
    OneMoreStep(NewestFirst, [a] + [b] + [c] + [d], e);
    var s := After([a] + [b] + [c]);
    assert Past(["b", "a"], 1) == ["a"] && Past(["b"], 1) == [];
    assert s.active[0] == Deleting(["a"]) && s.held == {"a", "b"};
    var r := After([a] + [b] + [c] + [d]);
    assert r.active == map[1 := Created(1)] && r.held == {"b"} && r.over == {0};
    assert ([a] + [b] + [c] + [d] + [e])[..2] == [a] + [b];
  }

  /** One firing has listed, and means to delete "p". */
  function OnePlans(): seq<Step> {
    [Create(0, "p", 1, true)] + [List(0, false, [])] + [Create(1, "a", 1, true)] + [List(1, true, ["a", "p"])]
  }

  lemma OneDoesPlan()
    ensures Legal(NewestFirst, EMPTY, OnePlans())
    ensures After(OnePlans()) ==
            State(["p", "a"], map["p" := 0, "a" := 1], {"p", "a"}, {}, map[1 := Deleting(["p"])], {0})
  {
    var a, b, c, d := Create(0, "p", 1, true), List(0, false, []), Create(1, "a", 1, true), List(1, true, ["a", "p"]);
    OneMoreStep(NewestFirst, [], a);
    assert [] + [a] == [a];
    OneMoreStep(NewestFirst, [a], b);
    OneMoreStep(NewestFirst, [a] + [b], c);
    OneMoreStep(NewestFirst, [a] + [b] + [c], d);
    assert After([a] + [b]) == State(["p"], map["p" := 0], {"p"}, {}, map[], {0});
    assert After([a] + [b] + [c]) ==
           State(["p", "a"], map["p" := 0, "a" := 1], {"p", "a"}, {}, map[1 := Created(1)], {0});
    assert Past(["a", "p"], 1) == ["p"];
  }

  /** A second one has, and means to delete it too; the first one does. */
  function OnePlansStill(): seq<Step> {
    OnePlans() + [Create(2, "b", 2, true)] + [List(2, true, ["b", "a", "p"])] + [Delete(1, true)]
  }

  lemma FirstDeletes(s: State, r: State, q: State)
    requires s == State(["p", "a"], map["p" := 0, "a" := 1], {"p", "a"}, {}, map[1 := Deleting(["p"])], {0})
    requires r == Apply(s, Create(2, "b", 2, true)) && q == Apply(r, List(2, true, ["b", "a", "p"]))
    ensures Enabled(NewestFirst, s, Create(2, "b", 2, true))
    ensures Enabled(NewestFirst, r, List(2, true, ["b", "a", "p"])) && Enabled(NewestFirst, q, Delete(1, true))
    ensures Apply(q, Delete(1, true)) ==
            State(["p", "a", "b"], map["p" := 0, "a" := 1, "b" := 2], {"a", "b"}, {},
                  map[2 := Deleting(["p"])], {0, 1})
  {
    assert r == State(["p", "a", "b"], map["p" := 0, "a" := 1, "b" := 2], {"p", "a", "b"}, {},
                      map[1 := Deleting(["p"]), 2 := Created(2)], {0});
    assert Past(["b", "a", "p"], 2) == ["p"];
    assert q.active == map[1 := Deleting(["p"]), 2 := Deleting(["p"])];
  }

  lemma OneDoesPlanStill()
    ensures Legal(NewestFirst, EMPTY, OnePlansStill())
    ensures After(OnePlansStill()) ==
            State(["p", "a", "b"], map["p" := 0, "a" := 1, "b" := 2], {"a", "b"}, {},
                  map[2 := Deleting(["p"])], {0, 1})
  {
    var run, a, b := OnePlans(), Create(2, "b", 2, true), List(2, true, ["b", "a", "p"]);
    OneDoesPlan();
    OneMoreStep(NewestFirst, run, a);
    OneMoreStep(NewestFirst, run + [a], b);
    OneMoreStep(NewestFirst, run + [a] + [b], Delete(1, true));
    FirstDeletes(After(run), After(run + [a]), After(run + [a] + [b]));
  }

  /** The other one deletes "p", made again meanwhile. */
  lemma DeletedAgain(s: State, r: State, q: State)
    requires s == State(["p", "a", "b"], map["p" := 0, "a" := 1, "b" := 2], {"a", "b"}, {},
                        map[2 := Deleting(["p"])], {0, 1})
    requires r == Apply(s, Create(3, "p", 1, true)) && q == Apply(r, Delete(2, true))
    ensures "p" !in s.held && Planned(s, "p") && 3 !in s.active && 3 !in s.over
    ensures Enabled(NewestFirst, r, Delete(2, true)) && Enabled(NewestFirst, q, List(3, false, []))
    ensures Apply(q, List(3, false, [])) ==
            State(["p", "a", "b", "p"], map["p" := 3, "a" := 1, "b" := 2], {"a", "b"}, {}, map[], {0, 1, 2, 3})
  {
    assert Plans(s.active[2], "p");
    assert r == State(["p", "a", "b", "p"], map["p" := 3, "a" := 1, "b" := 2], {"a", "b", "p"}, {},
                      map[2 := Deleting(["p"]), 3 := Created(1)], {0, 1});
    assert q == State(["p", "a", "b", "p"], map["p" := 3, "a" := 1, "b" := 2], {"a", "b"}, {},
                      map[3 := Created(1)], {0, 1, 2});
  }

  /**
   Nor is the latest snapshot safe if it is made where a firing under way still means to delete. Here two
   firings mean to delete "p", one does, a third makes it again, and the second deletes that; everything
   but the path of the third is in order, and at rest the latest snapshot is gone while older ones are left.
   */
  lemma PlannedPathGoesAgain()
    ensures var run, again := OnePlansStill(), Create(3, "p", 1, true);
            && Legal(NewestFirst, EMPTY, run) && "p" !in After(run).held && Planned(After(run), "p")
            && 3 !in After(run).active && 3 !in After(run).over
            && Enabled(NewestFirst, After(run + [again]), Delete(2, true))
            && Enabled(NewestFirst, After(run + [again] + [Delete(2, true)]), List(3, false, []))
            && After(run + [again] + [Delete(2, true)] + [List(3, false, [])]) ==
               State(["p", "a", "b", "p"], map["p" := 3, "a" := 1, "b" := 2], {"a", "b"}, {}, map[], {0, 1, 2, 3})
  {
    var run, again := OnePlansStill(), Create(3, "p", 1, true);
    OneDoesPlanStill();
    OneMoreStep(NewestFirst, run, again);
    OneMoreStep(NewestFirst, run + [again], Delete(2, true));
    OneMoreStep(NewestFirst, run + [again] + [Delete(2, true)], List(3, false, []));
    DeletedAgain(After(run), After(run + [again]), After(run + [again] + [Delete(2, true)]));
  }

  // ---------- Oldest first ----------

  lemma {:induction false} OldestInPlace(s: State, listing: seq<string>, m: nat, k: nat)
    requires Sound(s) && IsListing(OldestFirst, s, listing)
    requires SparesThem(OldestFirst, s, m) && k < m && k < |s.made|
    ensures k < |listing| && listing[k] in s.born && s.born[listing[k]] == k && listing[k] == s.made[k]
  {
    if k > 0 {
      OldestInPlace(s, listing, m, k - 1);
    }
    assert Spared(OldestFirst, s, m, k) && Holds(s, k);
    var j :| 0 <= j < |listing| && listing[j] == s.made[k];
    RankInListing(OldestFirst, s, listing, k);
  }

  /**
   Oldest first, the same code keeps the wrong end. Let all limits be at least m, and let one firing with
   limit m have listed after the last creation. Then what is left is exactly the first m snapshots ever
   made, or all there are: however often policies fire, nothing newer is kept.
   */
  lemma OldestFirstFreezes(run: seq<Step>, m: nat, i: nat, f: Firing, listing: seq<string>, left: seq<string>)
    requires Legal(OldestFirst, EMPTY, run) && LimitsAtLeast(run, m)
    requires i < |run| && run[i] == List(f, true, listing)
    requires f in After(run[..i]).active && After(run[..i]).active[f] == Created(m)
    requires f in After(run).over && After(run).made == After(run[..i]).made
    requires IsListing(OldestFirst, After(run), left) && After(run).held !! After(run).stuck
    ensures left == Top(After(run).made, m)
  {
    SoundAlways(OldestFirst, run);
    SparesAlways(OldestFirst, run, m);
    FiringTrims(OldestFirst, run, i, f, listing, left);
    FirstAreLeft(After(run), m, left);
  }

  lemma FirstAreLeft(s: State, m: nat, left: seq<string>)
    requires Sound(s) && SparesThem(OldestFirst, s, m) && IsListing(OldestFirst, s, left) && |left| <= m
    ensures left == Top(s.made, m)
  {
    var top := Top(s.made, m);
    if left != [] {
      RankInListing(OldestFirst, s, left, |left| - 1);
      assert left[|left| - 1] in s.held;
    }
    forall k | 0 <= k < |top| ensures k < |left| && left[k] == top[k] {
      OldestInPlace(s, left, m, k);
    }
    if top != [] {
      OldestInPlace(s, left, m, |top| - 1);
    }
  }

  lemma LatestIsListedLast(s: State, listing: seq<string>)
    requires Sound(s) && IsListing(OldestFirst, s, listing) && Holds(s, |s.made| - 1)
    ensures listing != [] && Last(listing) == Last(s.made)
  {
    assert s.made[|s.made| - 1] in listing;
    var j :| 0 <= j < |listing| && listing[j] == s.made[|s.made| - 1];
    assert listing[|listing| - 1] in s.held;
    if j < |listing| - 1 {
      assert false;
    }
  }

  lemma LatestIsPlanned(s: State, f: Firing, listing: seq<string>)
    requires Sound(s) && Enabled(OldestFirst, s, List(f, true, listing))
    requires Holds(s, |s.made| - 1) && |listing| > s.active[f].limit
    ensures Planned(Apply(s, List(f, true, listing)), Last(s.made))
  {
    LatestIsListedLast(s, listing);
    var past := Past(listing, s.active[f].limit);
    assert past[|past| - 1] == Last(s.made);
    assert Plans(Apply(s, List(f, true, listing)).active[f], Last(s.made));
  }

  /** And the firing that does so means to delete the latest snapshot as soon as it has listed past its limit. */
  lemma OldestFirstDeletesTheLatest(run: seq<Step>, f: Firing, listing: seq<string>)
    requires Legal(OldestFirst, EMPTY, run) && Enabled(OldestFirst, After(run), List(f, true, listing))
    requires Holds(After(run), |After(run).made| - 1) && |listing| > After(run).active[f].limit
    ensures Planned(After(run + [List(f, true, listing)]), Last(After(run).made))
  {
    assert Front(run + [List(f, true, listing)]) == run;
    SoundAlways(OldestFirst, run);
    LatestIsPlanned(After(run), f, listing);
  }

  // ---------- What the names say ----------

  /** Every snapshot is made under one policy's name, at later and later seconds. */
  ghost predicate NamedInTime(dir: string, name: string, run: seq<Step>, times: seq<Names.Civil>) {
    && '/' !in name
    && (forall t :: t in times ==> Names.Printable(t))
    && (forall i, j :: 0 <= i < j < |times| ==> Names.Earlier(times[i], times[j]))
    && (forall i :: 0 <= i < |run| && run[i].Create? && run[i].works ==>
          var k := |After(run[..i]).made|; k < |times| && run[i].path == Names.SnapshotPath(dir, name, times[k]))
  }

  lemma NamedSoFar(dir: string, name: string, run: seq<Step>, times: seq<Names.Civil>)
    requires NamedInTime(dir, name, run, times) && run != []
    ensures NamedInTime(dir, name, Front(run), times)
  {
    var f := Front(run);
    forall i | 0 <= i < |f| && f[i].Create? && f[i].works
      ensures var k := |After(f[..i]).made|; k < |times| && f[i].path == Names.SnapshotPath(dir, name, times[k])
    {
      assert f[..i] == run[..i] && f[i] == run[i];
    }
  }

  /** A step makes the next snapshot in time, or none. */
  lemma MadeLast(dir: string, name: string, run: seq<Step>, times: seq<Names.Civil>)
    requires NamedInTime(dir, name, run, times) && run != []
    ensures var before, k := After(Front(run)).made, |After(Front(run)).made|;
            || After(run).made == before
            || (k < |times| && After(run).made == before + [Names.SnapshotPath(dir, name, times[k])])
  {
    var n := |run| - 1;
    assert run[..n] == Front(run) && run[n] == Last(run);
  }

  lemma {:induction false} MadeInTime(dir: string, name: string, run: seq<Step>, times: seq<Names.Civil>, k: nat)
    requires NamedInTime(dir, name, run, times) && k < |After(run).made|
    ensures k < |times| && After(run).made[k] == Names.SnapshotPath(dir, name, times[k])
  {
    if run != [] {
      MadeLast(dir, name, run, times);
      if k < |After(Front(run)).made| {
        NamedSoFar(dir, name, run, times);
        MadeInTime(dir, name, Front(run), times, k);
      }
    }
  }

  /**
   Newest first is what the names say: one policy's snapshots, made at later and later seconds, are
   listed in descending order of their paths.
   */
  lemma ListingSortsByPath(dir: string, name: string, run: seq<Step>, times: seq<Names.Civil>, listing: seq<string>,
                           i: nat, j: nat)
    requires Legal(NewestFirst, EMPTY, run) && NamedInTime(dir, name, run, times)
    requires IsListing(NewestFirst, After(run), listing) && i < j < |listing|
    ensures Names.Before(listing[j], listing[i])
  {
    var s := After(run);
    SoundAlways(NewestFirst, run);
    assert Precedes(NewestFirst, s, listing[i], listing[j]);
    var a, b := s.born[listing[j]], s.born[listing[i]];
    MadeInTime(dir, name, run, times, a);
    MadeInTime(dir, name, run, times, b);
    assert times[a] in times && times[b] in times;
    Names.PathOrder(dir, name, times[a], times[b]);
  }

  // ---------- A firing among firings that rest ----------

  /** One firing, and what goes wrong during it. */
  datatype Fate = Fate(path: string, retentionDaily: int, created: bool, listed: bool, fails: set<string>)

  /** The listing after a creation. */
  function Listed(order: Order, held: seq<string>, path: string): seq<string> {
    if order.NewestFirst? then [path] + held else held + [path]
  }

  /** What a firing that nothing overlaps makes of a listing. */
  function Fire(order: Order, held: seq<string>, o: Fate): seq<string> {
    if !o.created then held
    else if !o.listed then Listed(order, held, o.path)
    else Survivors(Listed(order, held, o.path), Limit(o.retentionDaily), o.fails)
  }

  function Deletions(f: Firing, todo: seq<string>, fails: set<string>): seq<Step> {
    if todo == [] then [] else Deletions(f, Front(todo), fails) + [Delete(f, Last(todo) !in fails)]
  }

  function Script(order: Order, held: seq<string>, f: Firing, o: Fate): seq<Step> {
    var create := Create(f, o.path, o.retentionDaily, o.created);
    if !o.created then [create] else
    var listing := Listed(order, held, o.path);
    [create, List(f, o.listed, listing)] +
    (if o.listed then Deletions(f, Past(listing, Limit(o.retentionDaily)), o.fails) else [])
  }

  lemma ListingWithout(order: Order, s: State, a: seq<string>, x: string, b: seq<string>, r: State)
    requires IsListing(order, s, a + [x] + b) && r.held == s.held - {x} && r.born == s.born
    ensures IsListing(order, r, a + b)
  {
    var l, l' := a + [x] + b, a + b;
    forall i, j | 0 <= i < j < |l'| ensures Precedes(order, r, l'[i], l'[j]) {
      assert Precedes(order, s, l[if i < |a| then i else i + 1], l[if j < |a| then j else j + 1]);
    }
    forall p ensures p in r.held <==> p in l' {
      assert p in l <==> p in a || p == x || p in b;
      if x in a {
        var i :| 0 <= i < |a| && a[i] == x;
        assert Precedes(order, s, l[i], l[|a|]);
      }
      if x in b {
        var i :| 0 <= i < |b| && b[i] == x;
        assert Precedes(order, s, l[|a|], l[|a| + 1 + i]);
      }
    }
  }

  /** One turn of the loop, by whether the deletion fails. */
  lemma OneTurn(order: Order, s: State, f: Firing, kept: seq<string>, x: string, rest: seq<string>, works: bool)
    requires IsListing(order, s, kept + [x] + rest) && f in s.active && s.active[f] == Deleting([x] + rest)
    ensures Enabled(order, s, Delete(f, works))
    ensures var r := Apply(s, Delete(f, works));
            && IsListing(order, r, (if works then kept else kept + [x]) + rest)
            && (if rest == [] then r.active == s.active - {f} && f in r.over
                else r.active == s.active[f := Deleting(rest)])
  {
    assert ([x] + rest)[1..] == rest && x in kept + [x] + rest;
    if works {
      ListingWithout(order, s, kept, x, rest, Apply(s, Delete(f, works)));
    }
  }

  lemma MovedOn<K, V>(m: map<K, V>, k: K, v: V, w: V)
    ensures m[k := v] - {k} == m - {k} && m[k := v][k := w] == m[k := w]
  {
  }

  lemma {:induction false} DeletionsSoFar(order: Order, s: State, f: Firing, kept: seq<string>, done: seq<string>,
                                          rest: seq<string>, fails: set<string>)
    requires IsListing(order, s, kept + done + rest) && done != []
    requires f in s.active && s.active[f] == Deleting(done + rest)
    ensures Legal(order, s, Deletions(f, done, fails))
    ensures var r := Play(s, Deletions(f, done, fails));
            && IsListing(order, r, kept + Stuck(done, fails) + rest)
            && (if rest == [] then r.active == s.active - {f} && f in r.over
                else r.active == s.active[f := Deleting(rest)])
  {
    var x := Last(done);
    var steps, before := Deletions(f, done, fails), Deletions(f, Front(done), fails);
    assert Front(steps) == before && Last(steps) == Delete(f, x !in fails);
    assert done == Front(done) + [x];
    assert done + rest == Front(done) + ([x] + rest);
    assert kept + done + rest == kept + Front(done) + ([x] + rest);
    var b := Play(s, before);
    if Front(done) == [] {
      assert before == [] && kept + Stuck(Front(done), fails) == kept;
      assert s.active[f := Deleting([x] + rest)] == s.active;
    } else {
      DeletionsSoFar(order, s, f, kept, Front(done), [x] + rest, fails);
    }
    var so := kept + Stuck(Front(done), fails);
    assert so + ([x] + rest) == so + [x] + rest;
    OneTurn(order, b, f, so, x, rest, x !in fails);
    assert kept + Stuck(done, fails) == if x in fails then so + [x] else so;
    MovedOn(s.active, f, Deleting([x] + rest), Deleting(rest));
  }

  lemma {:induction false} RunsConcat(order: Order, s: State, a: seq<Step>, b: seq<Step>)
    ensures Play(s, a + b) == Play(Play(s, a), b)
    ensures Legal(order, s, a + b) <==> Legal(order, s, a) && Legal(order, Play(s, a), b)
  {
    if b == [] {
      assert a + b == a;
    } else {
      RunsConcat(order, s, a, Front(b));
      assert Front(a + b) == a + Front(b) && Last(a + b) == Last(b);
    }
  }

  lemma PutAndTaken<K, V>(m: map<K, V>, k: K, v: V)
    requires k !in m
    ensures m[k := v] - {k} == m
  {
  }

  lemma CreationIsListed(order: Order, s: State, held: seq<string>, f: Firing, path: string, retentionDaily: int)
    requires Sound(s) && IsListing(order, s, held) && path !in s.held
    ensures IsListing(order, Apply(s, Create(f, path, retentionDaily, true)), Listed(order, held, path))
  {
    var c, listing := Apply(s, Create(f, path, retentionDaily, true)), Listed(order, held, path);
    forall i | 0 <= i < |held| ensures Precedes(OldestFirst, c, held[i], path) {
      assert held[i] in s.held;
    }
    forall i, j | 0 <= i < j < |listing| ensures Precedes(order, c, listing[i], listing[j]) {
      if order.NewestFirst? && i > 0 {
        assert Precedes(order, s, held[i - 1], held[j - 1]);
      } else if order.OldestFirst? && j < |held| {
        assert Precedes(order, s, held[i], held[j]);
      }
    }
  }

  lemma ListingAlone(order: Order, s: State, base: map<Firing, Stage>, f: Firing, limit: nat, works: bool,
                     listing: seq<string>)
    requires IsListing(order, s, listing) && f !in base && s.active == base[f := Created(limit)]
    ensures Enabled(order, s, List(f, works, listing))
    ensures var r, todo := Apply(s, List(f, works, listing)), if works then Past(listing, limit) else [];
            && IsListing(order, r, listing)
            && (if todo == [] then r.active == base && f in r.over else r.active == base[f := Deleting(todo)])
  {
    PutAndTaken(base, f, Created(limit));
    if works {
      MovedOn(base, f, Created(limit), Deleting(Past(listing, limit)));
    }
  }

  /** The creation and the listing of a firing, one right after the other. */
  lemma CreateAndList(order: Order, s: State, held: seq<string>, f: Firing, o: Fate)
    requires Sound(s) && IsListing(order, s, held) && f !in s.active && f !in s.over
    requires o.created && o.path !in s.held && !Planned(s, o.path)
    ensures var listing, limit := Listed(order, held, o.path), Limit(o.retentionDaily);
            var create, list := Create(f, o.path, o.retentionDaily, true), List(f, o.listed, listing);
            var r, todo := Play(s, [create, list]), if o.listed then Past(listing, limit) else [];
            && Legal(order, s, [create, list]) && IsListing(order, r, listing)
            && (if todo == [] then r.active == s.active && f in r.over else r.active == s.active[f := Deleting(todo)])
  {
    var listing := Listed(order, held, o.path);
    var create, list := Create(f, o.path, o.retentionDaily, true), List(f, o.listed, listing);
    var c := Apply(s, create);
    assert Front([create]) == [] && Front([create, list]) == [create];
    assert Play(s, [create]) == c && Legal(order, s, [create]);
    CreationIsListed(order, s, held, f, o.path, o.retentionDaily);
    ListingAlone(order, c, s.active, f, Limit(o.retentionDaily), o.listed, listing);
  }

  lemma DeletionsAlone(order: Order, s: State, f: Firing, listing: seq<string>, limit: nat, fails: set<string>)
    requires IsListing(order, s, listing) && Past(listing, limit) != []
    requires f in s.active && s.active[f] == Deleting(Past(listing, limit))
    ensures var steps := Deletions(f, Past(listing, limit), fails);
            && Legal(order, s, steps)
            && IsListing(order, Play(s, steps), Survivors(listing, limit, fails))
            && Play(s, steps).active == s.active - {f} && f in Play(s, steps).over
  {
    var top, past := Top(listing, limit), Past(listing, limit);
    assert top + past + [] == listing && past + [] == past;
    DeletionsSoFar(order, s, f, top, past, [], fails);
    assert top + Stuck(past, fails) + [] == Survivors(listing, limit, fails);
  }

  lemma FiringThatCreates(order: Order, s: State, held: seq<string>, f: Firing, o: Fate)
    requires Sound(s) && IsListing(order, s, held) && f !in s.active && f !in s.over
    requires o.created && o.path !in s.held && !Planned(s, o.path)
    ensures Legal(order, s, Script(order, held, f, o))
    ensures var r := Play(s, Script(order, held, f, o));
            IsListing(order, r, Fire(order, held, o)) && r.active == s.active && f in r.over
  {
    var listing, limit := Listed(order, held, o.path), Limit(o.retentionDaily);
    var two := [Create(f, o.path, o.retentionDaily, true), List(f, o.listed, listing)];
    var todo := if o.listed then Past(listing, limit) else [];
    CreateAndList(order, s, held, f, o);
    RunsConcat(order, s, two, Deletions(f, todo, o.fails));
    assert Script(order, held, f, o) == two + Deletions(f, todo, o.fails);
    if todo == [] {
      assert o.listed ==> Survivors(listing, limit, o.fails) == listing;
    } else {
      DeletionsAlone(order, Play(s, two), f, listing, limit, o.fails);
      PutAndTaken(s.active, f, Deleting(todo));
    }
  }

  /**
   A firing that no other one overlaps does what the listing alone decides: its creation, one listing and
   its deletions are a run that leaves the survivors, in order.
   */
  lemma FiringAlone(order: Order, s: State, held: seq<string>, f: Firing, o: Fate)
    requires Sound(s) && IsListing(order, s, held) && f !in s.active && f !in s.over
    requires o.created ==> o.path !in s.held && !Planned(s, o.path)
    ensures Legal(order, s, Script(order, held, f, o))
    ensures var r := Play(s, Script(order, held, f, o));
            IsListing(order, r, Fire(order, held, o)) && r.active == s.active && f in r.over
  {
    if !o.created {
      var create := Create(f, o.path, o.retentionDaily, false);
      assert Front([create]) == [] && Script(order, held, f, o) == [create];
      assert Play(s, [create]) == Apply(s, create) && Legal(order, s, [create]);
    } else {
      FiringThatCreates(order, s, held, f, o);
    }
  }
}

/** The disk and the part of the scheduler that fires policies. */
module RetentionServer {
  import opened Retention
  import opened Sequences

  /** A listing without one of its paths. */
  function Without<T(==)>(s: seq<T>, p: T): seq<T> {
    if s == [] then [] else Without(Front(s), p) + (if Last(s) == p then [] else [Last(s)])
  }

  lemma {:induction false} WithoutAbsent<T>(s: seq<T>, p: T)
    requires p !in s
    ensures Without(s, p) == s
  {
    if s == [] {
      assert Without(s, p) == [];
    } else {
      assert s[|s| - 1] in s;
      assert s == Front(s) + [Last(s)];
      WithoutAbsent(Front(s), p);
    }
  }

  lemma {:induction false} WithoutConcat<T>(a: seq<T>, b: seq<T>, p: T)
    ensures Without(a + b, p) == Without(a, p) + Without(b, p)
  {
    if b == [] {
      assert a + b == a;
    } else {
      WithoutConcat(a, Front(b), p);
      assert Front(a + b) == a + Front(b) && Last(a + b) == Last(b);
    }
  }

  lemma WithoutOne<T>(a: seq<T>, p: T, b: seq<T>)
    requires p !in a && p !in b
    ensures Without(a + [p] + b, p) == a + b
  {
    WithoutConcat(a + [p], b, p);
    WithoutLast(a, p);
    WithoutAbsent(a, p);
    WithoutAbsent(b, p);
  }

  lemma WithoutLast<T>(a: seq<T>, p: T)
    ensures Without(a + [p], p) == Without(a, p)
  {
    assert Front(a + [p]) == a && Last(a + [p]) == p;
  }

  predicate Distinct<T(==)>(s: seq<T>) {
    forall i, j :: 0 <= i < j < |s| ==> s[i] != s[j]
  }

  lemma NoOtherPlace<T>(a: seq<T>, x: T, b: seq<T>)
    requires Distinct(a + [x] + b)
    ensures x !in a && x !in b
  {
    var s := a + [x] + b;
    assert s[|a|] == x;
    assert forall i :: 0 <= i < |a| ==> s[i] == a[i];
    assert forall i :: 0 <= i < |b| ==> s[|a| + 1 + i] == b[i];
  }

  /** The listing when the loop has tried the first `i` paths. */
  function Halfway<T(==)>(top: seq<T>, toDelete: seq<T>, i: nat, fails: set<T>): seq<T>
    requires i <= |toDelete|
  {
    top + Stuck(toDelete[..i], fails) + toDelete[i..]
  }

  lemma HalfwayOn<T>(top: seq<T>, toDelete: seq<T>, i: nat, fails: set<T>)
    requires i < |toDelete| && Distinct(Halfway(top, toDelete, i, fails))
    ensures var h := Halfway(top, toDelete, i, fails);
            Halfway(top, toDelete, i + 1, fails) == if toDelete[i] in fails then h else Without(h, toDelete[i])
  {
    var x, kept, rest := toDelete[i], top + Stuck(toDelete[..i], fails), toDelete[i + 1..];
    assert toDelete[i..] == [x] + rest;
    assert Halfway(top, toDelete, i, fails) == kept + [x] + rest;
    assert Front(toDelete[..i + 1]) == toDelete[..i];
    NoOtherPlace(kept, x, rest);
    WithoutOne(kept, x, rest);
  }

  lemma HalfwayAtEnds<T>(top: seq<T>, toDelete: seq<T>, fails: set<T>)
    ensures Halfway(top, toDelete, 0, fails) == top + toDelete
    ensures Halfway(top, toDelete, |toDelete|, fails) == top + Stuck(toDelete, fails)
  {
    assert toDelete[..|toDelete|] == toDelete && toDelete[|toDelete|..] == [];
  }

  class Subvolume {
    const order: Order
    /** The snapshots of the subvolume, as the listing gives them. */
    var held: seq<string>

    ghost predicate Valid()
      reads this
    {
      Distinct(held)
    }

    constructor (order: Order)
      ensures Valid() && held == [] && this.order == order
    {
      this.order := order;
      held := [];
    }

    /**
     A new snapshot goes to its path, unless something is there already: then the tool refuses or puts
     it elsewhere, but never over another one. `place` is where it ends up.
     */
    method CreateSnapshot(path: string, place: Option<string>) returns (ok: bool)
      requires Valid() && (place.Some? ==> place.value !in held && (path !in held ==> place.value == path))
      modifies this
      ensures Valid() && ok == place.Some?
      ensures held == if place.None? then old(held)
                      else if order.NewestFirst? then [place.value] + old(held) else old(held) + [place.value]
    {
      if place.Some? {
        held := if order.NewestFirst? then [place.value] + held else held + [place.value];
      }
      ok := place.Some?;
    }

    /** Deleting a path that is not there fails. */
    method DeleteSnapshot(path: string, works: bool) returns (ok: bool)
      requires Valid()
      modifies this
      ensures Valid() && (ok <==> works && path in old(held))
      ensures held == if works then Without(old(held), path) else old(held)
      ensures forall p :: p in held ==> p in old(held)
    {
      ok := false;
      var i := 0;
      while i < |held|
        invariant 0 <= i <= |held| && path !in held[..i] && held == old(held)
      {
        if held[i] == path {
          break;
        }
        i := i + 1;
      }
      if i < |held| && works {
        assert held == held[..i] + [path] + held[i + 1..];
        WithoutOne(held[..i], path, held[i + 1..]);
        held := held[..i] + held[i + 1..];
        ok := true;
      } else if works {
        assert held[..i] == held;
        WithoutAbsent(held, path);
      }
    }

    /** The deletion loop, over paths that end the listing. */
    method DeleteAll(ghost top: seq<string>, toDelete: seq<string>, fails: set<string>)
      requires Valid() && held == top + toDelete
      modifies this
      ensures Valid() && held == top + Stuck(toDelete, fails)
      ensures forall p :: p in held <==> p in top || (p in toDelete && p in fails)
    {
      StuckAreThoseThatFail(toDelete, fails);
      HalfwayAtEnds(top, toDelete, fails);
      var i := 0;
      while i < |toDelete|
        invariant 0 <= i <= |toDelete| && Valid()
        invariant held == Halfway(top, toDelete, i, fails)
      {
        HalfwayOn(top, toDelete, i, fails);
        var ok := DeleteSnapshot(toDelete[i], toDelete[i] !in fails);
        i := i + 1;
      }
    }

    /** `applyRetention`: deletes the suffix of the listing past the limit, one path at a time, whatever fails. */
    method ApplyRetention(retentionDaily: int, fails: set<string>)
      requires Valid()
      modifies this
      ensures Valid() && held == Survivors(old(held), Limit(retentionDaily), fails)
      ensures Keeps(old(held), if retentionDaily <= 0 then 7 else retentionDaily, fails, held)
    {
      SurvivorsKeep(held, if retentionDaily <= 0 then 7 else retentionDaily, fails);
      var snapshots := held;
      var maxToKeep := retentionDaily;
      if maxToKeep <= 0 {
        maxToKeep := 7;
      }
      if |snapshots| <= maxToKeep {
        return;
      }
      assert snapshots == snapshots[..maxToKeep] + snapshots[maxToKeep..];
      DeleteAll(snapshots[..maxToKeep], snapshots[maxToKeep..], fails);
    }

    /** `execute`: a failed creation ends the firing, a failed listing skips retention. */
    method Execute(path: string, o: Fate)
      requires Valid() && (o.created ==> o.path !in held && (path !in held ==> o.path == path))
      modifies this
      ensures Valid() && held == Fire(order, old(held), o)
      ensures !o.created ==> held == old(held)
      ensures var all := if order.NewestFirst? then [o.path] + old(held) else old(held) + [o.path];
              && (o.created && !o.listed ==> held == all)
              && (o.created && o.listed ==>
                    Keeps(all, if o.retentionDaily <= 0 then 7 else o.retentionDaily, o.fails, held))
    {
      var ok := CreateSnapshot(path, if o.created then Some(o.path) else None);
      if !ok {
        return;
      }
      if !o.listed {
        return;
      }
      ApplyRetention(o.retentionDaily, o.fails);
    }
  }
}
