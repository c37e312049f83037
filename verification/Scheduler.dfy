/**
 The policy table of internal/scheduler/scheduler.go: which policies the cron table fires.

 The scheduler keeps the policies by id, and for each policy it has scheduled the id of its cron
 entry; the cron library keeps the entries. The specification is the history of calls: the latest
 version of a policy is the one last added or updated and not removed since. Which schedules the
 library accepts is an arbitrary predicate.
 */
module Scheduler {
  import opened Sequences

  datatype Policy = Policy(
    id: string,
    name: string,
    subvolume: string,
    schedule: string,
    retentionDaily: int,
    readOnly: bool,
    enabled: bool)

  /** The library numbers its entries. */
  type EntryID = int

  /** An entry of the cron table fires the policy its closure has captured. */
  datatype Table = Table(
    policies: map<string, Policy>,
    entryIDs: map<string, EntryID>,
    cron: map<EntryID, Policy>,
    nextID: EntryID)

  datatype Op = Add(p: Policy) | Update(p: Policy) | Remove(id: string)

  const EMPTY := Table(map[], map[], map[], 0)

  function Schedule(p: Policy): string {
    if p.schedule == "" then "0 * * * *" else p.schedule
  }

  predicate Schedulable(p: Policy, accepts: string -> bool) {
    p.enabled && accepts(Schedule(p))
  }

  function AddTo(t: Table, p: Policy, accepts: string -> bool): Table {
    var u := t.(policies := t.policies[p.id := p]);
    if Schedulable(p, accepts)
    then u.(entryIDs := t.entryIDs[p.id := t.nextID + 1],
            cron := t.cron[t.nextID + 1 := p],
            nextID := t.nextID + 1)
    else u
  }

  function RemoveFrom(t: Table, id: string): Table {
    var u := t.(policies := t.policies - {id});
    if id in t.entryIDs
    then u.(entryIDs := t.entryIDs - {id}, cron := t.cron - {t.entryIDs[id]})
    else u
  }

  function Apply(t: Table, op: Op, accepts: string -> bool): Table {
    match op
    case Add(p) => AddTo(t, p, accepts)
    case Update(p) => AddTo(RemoveFrom(t, p.id), p, accepts)
    case Remove(id) => RemoveFrom(t, id)
  }

  function After(ops: seq<Op>, accepts: string -> bool): Table {
    if ops == [] then EMPTY else Apply(After(Front(ops), accepts), Last(ops), accepts)
  }

  /** The version of a policy that ought to be in force. */
  function Latest(ops: seq<Op>, id: string): Option<Policy> {
    if ops == [] then None else
    match Last(ops)
    case Add(p) => if p.id == id then Some(p) else Latest(Front(ops), id)
    case Update(p) => if p.id == id then Some(p) else Latest(Front(ops), id)
    case Remove(k) => if k == id then None else Latest(Front(ops), id)
  }

  // ---------- What always holds ----------

  /** Tracked entries are live, distinct and numbered in the past, and fire the policy they are tracked for. */
  ghost predicate Tracks(t: Table) {
    && (forall id :: id in t.entryIDs ==> t.entryIDs[id] in t.cron && t.cron[t.entryIDs[id]].id == id)
    && (forall e :: e in t.cron ==> e <= t.nextID)
  }

  lemma TracksAdd(t: Table, p: Policy, accepts: string -> bool)
    requires Tracks(t)
    ensures Tracks(AddTo(t, p, accepts))
  {
  }

  lemma SizesAfterAdd(t: Table, p: Policy, accepts: string -> bool)
    requires Tracks(t) && Schedulable(p, accepts)
    ensures |AddTo(t, p, accepts).cron| == |t.cron| + 1
    ensures |AddTo(t, p, accepts).entryIDs| == |t.entryIDs| + (if p.id in t.entryIDs then 0 else 1)
  {
    assert t.nextID + 1 !in t.cron;
    OneMoreKey(t.cron, t.nextID + 1, p);
    OneMoreKey(t.entryIDs, p.id, t.nextID + 1);
  }

  lemma OneMoreKey<K, V>(m: map<K, V>, k: K, v: V)
    ensures |m[k := v]| == |m| + (if k in m then 0 else 1)
  {
    assert m[k := v].Keys == m.Keys + {k};
    assert |m[k := v].Keys| == |m[k := v]| && |m.Keys| == |m|;
  }

  lemma TracksRemove(t: Table, id: string)
    requires Tracks(t)
    ensures Tracks(RemoveFrom(t, id))
    ensures |RemoveFrom(t, id).cron| - |RemoveFrom(t, id).entryIDs| == |t.cron| - |t.entryIDs|
  {
    if id in t.entryIDs {
      var u := RemoveFrom(t, id);
      assert u.cron.Keys == t.cron.Keys - {t.entryIDs[id]};
      assert u.entryIDs.Keys == t.entryIDs.Keys - {id};
      assert |u.cron.Keys| == |u.cron| && |u.entryIDs.Keys| == |u.entryIDs|;
    }
  }

  /** Adding over an id that is tracked already loses sight of its entry. */
  predicate Overlaps(t: Table, op: Op) {
    op.Add? && op.p.id in t.entryIDs
  }

  /** How many accepted additions have been made over a tracked id. */
  function Strays(ops: seq<Op>, accepts: string -> bool): nat {
    if ops == [] then 0 else
    Strays(Front(ops), accepts) +
    (if Overlaps(After(Front(ops), accepts), Last(ops)) && Schedulable(Last(ops).p, accepts) then 1 else 0)
  }

  /** Accounting, with no assumption on ids: every live entry is tracked or was lost to an overlapping addition. */
  lemma {:induction false} EntriesAreAccountedFor(ops: seq<Op>, accepts: string -> bool)
    ensures var t := After(ops, accepts);
            Tracks(t) && |t.cron| == |t.entryIDs| + Strays(ops, accepts)
  {
    if ops != [] {
      EntriesAreAccountedFor(Front(ops), accepts);
      var t := After(Front(ops), accepts);
      match Last(ops)
      case Add(p) =>
        TracksAdd(t, p, accepts);
        if Schedulable(p, accepts) {
          SizesAfterAdd(t, p, accepts);
        }
      case Update(p) =>
        TracksRemove(t, p.id);
        TracksAdd(RemoveFrom(t, p.id), p, accepts);
        if Schedulable(p, accepts) {
          SizesAfterAdd(RemoveFrom(t, p.id), p, accepts);
        }
      case Remove(id) => TracksRemove(t, id);
    }
  }

  predicate Stray(t: Table, e: EntryID) {
    e in t.cron && forall id :: id in t.entryIDs ==> t.entryIDs[id] != e
  }

  lemma StrayThroughAdd(t: Table, p: Policy, e: EntryID, accepts: string -> bool)
    requires Tracks(t) && Stray(t, e)
    ensures var u := AddTo(t, p, accepts); Stray(u, e) && u.cron[e] == t.cron[e]
  {
  }

  lemma StrayThroughRemove(t: Table, id: string, e: EntryID)
    requires Stray(t, e)
    ensures var u := RemoveFrom(t, id); Stray(u, e) && u.cron[e] == t.cron[e]
  {
  }

  lemma StrayStays(ops: seq<Op>, op: Op, e: EntryID, accepts: string -> bool)
    requires Stray(After(ops, accepts), e)
    ensures var t, u := After(ops, accepts), After(ops + [op], accepts);
            Stray(u, e) && u.cron[e] == t.cron[e]
  {
    var t := After(ops, accepts);
    EntriesAreAccountedFor(ops, accepts);
    OneMoreCall(ops, op, accepts);
    match op
    case Add(p) => StrayThroughAdd(t, p, e, accepts);
    case Remove(id) => StrayThroughRemove(t, id, e);
    case Update(p) =>
      TracksRemove(t, p.id);
      StrayThroughRemove(t, p.id, e);
      StrayThroughAdd(RemoveFrom(t, p.id), p, e, accepts);
  }

  /** A live entry that is not tracked fires its old policy for ever: no sequence of calls removes it. */
  lemma {:induction false} StrayEntriesStay(ops: seq<Op>, more: seq<Op>, e: EntryID, accepts: string -> bool)
    requires Stray(After(ops, accepts), e)
    ensures Stray(After(ops + more, accepts), e)
    ensures After(ops + more, accepts).cron[e] == After(ops, accepts).cron[e]
  {
    if more == [] {
      assert ops + more == ops;
    } else {
      var f := ops + Front(more);
      assert ops + more == f + [Last(more)];
      StrayEntriesStay(ops, Front(more), e, accepts);
      StrayStays(f, Last(more), e, accepts);
    }
  }

  lemma OneMoreCall(ops: seq<Op>, op: Op, accepts: string -> bool)
    ensures After(ops + [op], accepts) == Apply(After(ops, accepts), op, accepts)
  {
    assert Front(ops + [op]) == ops && Last(ops + [op]) == op;
  }

  // ---------- When the table is right ----------

  /**
   The cron table holds one entry for each policy whose latest version is enabled and accepted, and fires
   that version.
   */
  ghost predicate Refines(t: Table, ops: seq<Op>, accepts: string -> bool) {
    && (forall id :: id in t.policies <==> Latest(ops, id).Some?)
    && (forall id :: id in t.policies ==> Latest(ops, id) == Some(t.policies[id]))
    && (forall id :: id in t.entryIDs <==> id in t.policies && Schedulable(t.policies[id], accepts))
    && (forall id :: id in t.entryIDs ==> t.entryIDs[id] in t.cron && t.cron[t.entryIDs[id]] == t.policies[id])
    && OnlyTracked(t)
  }

  /** Every live entry is some id's. */
  ghost predicate OnlyTracked(t: Table) {
    forall e :: e in t.cron ==> exists id :: id in t.entryIDs && t.entryIDs[id] == e
  }

  lemma OnlyTrackedAfterRemove(t: Table, id: string)
    requires OnlyTracked(t)
    ensures OnlyTracked(RemoveFrom(t, id))
  {
    var u := RemoveFrom(t, id);
    forall e | e in u.cron ensures exists k :: k in u.entryIDs && u.entryIDs[k] == e {
      var k :| k in t.entryIDs && t.entryIDs[k] == e;
      assert k in u.entryIDs && u.entryIDs[k] == e;
    }
  }

  lemma OnlyTrackedAfterAdd(t: Table, p: Policy, accepts: string -> bool)
    requires OnlyTracked(t) && p.id !in t.entryIDs
    ensures OnlyTracked(AddTo(t, p, accepts))
  {
    var u := AddTo(t, p, accepts);
    forall e | e in u.cron ensures exists k :: k in u.entryIDs && u.entryIDs[k] == e {
      if e in t.cron {
        var k :| k in t.entryIDs && t.entryIDs[k] == e;
        assert k in u.entryIDs && u.entryIDs[k] == e;
      } else {
        assert p.id in u.entryIDs && u.entryIDs[p.id] == e;
      }
    }
  }

  /** No addition over a tracked id. Ids just made up, and updates, are always safe. */
  ghost predicate Tidy(ops: seq<Op>, accepts: string -> bool) {
    ops != [] ==> Tidy(Front(ops), accepts) && !Overlaps(After(Front(ops), accepts), Last(ops))
  }

  ghost predicate RightNow(ops: seq<Op>, accepts: string -> bool) {
    Refines(After(ops, accepts), ops, accepts)
  }

  ghost predicate RefinesThroughout(ops: seq<Op>, accepts: string -> bool) {
    RightNow(ops, accepts) && (ops != [] ==> RefinesThroughout(Front(ops), accepts))
  }

  /** The table with the history in which `id` was just removed. */
  lemma RefinesRemove(t: Table, ops: seq<Op>, id: string, accepts: string -> bool)
    requires Tracks(t) && Refines(t, ops, accepts)
    ensures Refines(RemoveFrom(t, id), ops + [Remove(id)], accepts)
  {
    assert Front(ops + [Remove(id)]) == ops;
    OnlyTrackedAfterRemove(t, id);
  }

  /** `later` is the history in which `p` was the last thing installed. */
  lemma RefinesAdd(t: Table, ops: seq<Op>, p: Policy, later: seq<Op>, accepts: string -> bool)
    requires Tracks(t) && Refines(t, ops, accepts) && p.id !in t.entryIDs
    requires forall id :: Latest(later, id) == if id == p.id then Some(p) else Latest(ops, id)
    ensures Refines(AddTo(t, p, accepts), later, accepts)
  {
    OnlyTrackedAfterAdd(t, p, accepts);
  }

  /** An overlapping addition leaves the table wrong at once: a stray entry, or a policy that should not fire. */
  lemma OverlapBreaks(t: Table, ops: seq<Op>, p: Policy, accepts: string -> bool)
    requires Tracks(t) && p.id in t.entryIDs
    ensures !Refines(AddTo(t, p, accepts), ops + [Add(p)], accepts)
  {
    var u := AddTo(t, p, accepts);
    if Schedulable(p, accepts) {
      var e := t.entryIDs[p.id];
      assert e in u.cron;
      if id :| id in u.entryIDs && u.entryIDs[id] == e {
        assert false;
      }
    } else {
      assert p.id in u.entryIDs && u.policies[p.id] == p;
    }
  }

  lemma LatestOneMore(ops: seq<Op>, op: Op, id: string)
    ensures Latest(ops + [op], id) ==
            match op
            case Add(p) => if p.id == id then Some(p) else Latest(ops, id)
            case Update(p) => if p.id == id then Some(p) else Latest(ops, id)
            case Remove(k) => if k == id then None else Latest(ops, id)
  {
    assert Front(ops + [op]) == ops;
  }

  lemma RefinesUpdate(t: Table, ops: seq<Op>, p: Policy, accepts: string -> bool)
    requires Tracks(t) && Refines(t, ops, accepts)
    ensures Refines(Apply(t, Update(p), accepts), ops + [Update(p)], accepts)
  {
    var hist, later := ops + [Remove(p.id)], ops + [Update(p)];
    TracksRemove(t, p.id);
    RefinesRemove(t, ops, p.id, accepts);
    forall id ensures Latest(later, id) == if id == p.id then Some(p) else Latest(hist, id) {
      LatestOneMore(ops, Remove(p.id), id);
      LatestOneMore(ops, Update(p), id);
    }
    RefinesAdd(RemoveFrom(t, p.id), hist, p, later, accepts);
  }

  lemma RefinesPerStep(t: Table, ops: seq<Op>, op: Op, accepts: string -> bool)
    requires Tracks(t) && Refines(t, ops, accepts)
    ensures Refines(Apply(t, op, accepts), ops + [op], accepts) <==> !Overlaps(t, op)
  {
    match op
    case Add(p) =>
      if p.id in t.entryIDs {
        OverlapBreaks(t, ops, p, accepts);
      } else {
        forall id ensures Latest(ops + [op], id) == if id == p.id then Some(p) else Latest(ops, id) {
          LatestOneMore(ops, op, id);
        }
        RefinesAdd(t, ops, p, ops + [op], accepts);
      }
    case Remove(id) => RefinesRemove(t, ops, id, accepts);
    case Update(p) => RefinesUpdate(t, ops, p, accepts);
  }

  lemma RightPerCall(ops: seq<Op>, op: Op, accepts: string -> bool)
    requires RightNow(ops, accepts)
    ensures RightNow(ops + [op], accepts) <==> !Overlaps(After(ops, accepts), op)
  {
    EntriesAreAccountedFor(ops, accepts);
    RefinesPerStep(After(ops, accepts), ops, op, accepts);
    OneMoreCall(ops, op, accepts);
  }

  /**
   The cron table is right after every call exactly when no policy is added over a tracked id.
   */
  lemma {:induction false} CronTableIsRight(ops: seq<Op>, accepts: string -> bool)
    ensures RefinesThroughout(ops, accepts) <==> Tidy(ops, accepts)
  {
    if ops == [] {
      assert RightNow(ops, accepts);
    } else {
      CronTableIsRight(Front(ops), accepts);
      assert ops == Front(ops) + [Last(ops)];
      if RefinesThroughout(Front(ops), accepts) {
        RightPerCall(Front(ops), Last(ops), accepts);
      }
    }
  }

  // ---------- What the cron table fires ----------

  lemma {:induction false} LiveEntriesAreSchedulable(ops: seq<Op>, accepts: string -> bool, e: EntryID)
    requires e in After(ops, accepts).cron
    ensures Schedulable(After(ops, accepts).cron[e], accepts)
  {
    var t, cron := After(Front(ops), accepts), After(ops, accepts).cron;
    if e in t.cron && t.cron[e] == cron[e] {
      LiveEntriesAreSchedulable(Front(ops), accepts, e);
    }
  }

  /**
   Whatever calls were made: every live entry fires a policy that is enabled and whose schedule, every hour
   when none is given, was accepted.
   */
  lemma LiveEntriesAreEnabled(ops: seq<Op>, accepts: string -> bool, e: EntryID)
    requires e in After(ops, accepts).cron
    ensures var p := After(ops, accepts).cron[e];
            p.enabled && accepts(if p.schedule == "" then "0 * * * *" else p.schedule)
  {
    LiveEntriesAreSchedulable(ops, accepts, e);
  }

  /** The call stores a version of policy `id`, or removes it. */
  predicate Concerns(op: Op, id: string) {
    match op
    case Add(p) => p.id == id
    case Update(p) => p.id == id
    case Remove(k) => k == id
  }

  /** The latest version of a policy is the one in the last call about it, if that call stores one. */
  lemma {:induction false} LatestIsInLastCall(ops: seq<Op>, id: string, i: int)
    requires 0 <= i < |ops| && Concerns(ops[i], id)
    requires forall j :: i < j < |ops| ==> !Concerns(ops[j], id)
    ensures Latest(ops, id) == if ops[i].Remove? then None else Some(ops[i].p)
  {
    if i < |ops| - 1 {
      assert !Concerns(ops[|ops| - 1], id);
      LatestIsInLastCall(Front(ops), id, i);
    }
  }

  lemma {:induction false} NoCallNoPolicy(ops: seq<Op>, id: string)
    requires forall i :: 0 <= i < |ops| ==> !Concerns(ops[i], id)
    ensures Latest(ops, id) == None
  {
    if ops != [] {
      assert !Concerns(ops[|ops| - 1], id);
      NoCallNoPolicy(Front(ops), id);
    }
  }

  /**
   In a right table, and so after any calls without an overlap: a policy has an entry exactly when its
   latest version is there, is enabled, and has an accepted schedule, every hour when none is given; the
   entry is the only one for the id and fires that version.
   */
  lemma RightTableFiresTheLatest(ops: seq<Op>, accepts: string -> bool, id: string)
    requires Tidy(ops, accepts)
    ensures var cron, latest := After(ops, accepts).cron, Latest(ops, id);
            && ((exists e :: e in cron && cron[e].id == id) <==>
                  latest.Some? && latest.value.enabled &&
                  accepts(if latest.value.schedule == "" then "0 * * * *" else latest.value.schedule))
            && (forall e :: e in cron && cron[e].id == id ==> latest == Some(cron[e]))
            && (forall e, f :: e in cron && f in cron && cron[e].id == id && cron[f].id == id ==> e == f)
  {
    CronTableIsRight(ops, accepts);
    EntriesAreAccountedFor(ops, accepts);
    var t := After(ops, accepts);
    assert RightNow(ops, accepts) && OnlyTracked(t);
    forall e | e in t.cron && t.cron[e].id == id ensures id in t.entryIDs && t.entryIDs[id] == e {
      var k :| k in t.entryIDs && t.entryIDs[k] == e;
      assert t.cron[t.entryIDs[k]].id == k;
    }
    if id in t.entryIDs {
      assert t.entryIDs[id] in t.cron && t.cron[t.entryIDs[id]].id == id;
    }
  }
}

/** The scheduler and the cron library's table as the program has them. */
module SchedulerServer {
  import opened Scheduler
  import opened Sequences

  class Cron {
    var entries: map<EntryID, Policy>
    var nextID: EntryID

    constructor ()
      ensures entries == map[] && nextID == 0
    {
      entries, nextID := map[], 0;
    }

    /** The library hands out ids in sequence and never again. */
    method AddFunc(p: Policy) returns (id: EntryID)
      modifies this
      ensures id == nextID == old(nextID) + 1 && entries == old(entries)[id := p]
    {
      nextID := nextID + 1;
      id := nextID;
      entries := entries[id := p];
    }

    method Remove(id: EntryID)
      modifies this
      ensures entries == old(entries) - {id} && nextID == old(nextID)
    {
      entries := entries - {id};
    }
  }

  class PolicyTable {
    const accepts: string -> bool
    const cron: Cron
    var policies: map<string, Policy>
    var entryIDs: map<string, EntryID>
    /** The calls made so far. */
    ghost var history: seq<Op>

    ghost function View(): Table
      reads this, cron
    {
      Table(policies, entryIDs, cron.entries, cron.nextID)
    }

    ghost predicate Valid()
      reads this, cron
    {
      View() == After(history, accepts)
    }

    constructor (accepts: string -> bool)
      ensures Valid() && history == [] && fresh(cron) && this.accepts == accepts
    {
      this.accepts := accepts;
      cron := new Cron();
      policies, entryIDs := map[], map[];
      history := [];
    }

    method Install(p: Policy) returns (ok: bool)
      modifies this`policies, this`entryIDs, cron
      ensures View() == AddTo(old(View()), p, accepts)
      ensures var accepted := accepts(if p.schedule == "" then "0 * * * *" else p.schedule);
              && (ok <==> !p.enabled || accepted)
              && policies == old(policies)[p.id := p]
              && (if p.enabled && accepted
                  then && cron.entries == old(cron.entries)[old(cron.nextID) + 1 := p]
                       && entryIDs == old(entryIDs)[p.id := old(cron.nextID) + 1]
                  else cron.entries == old(cron.entries) && entryIDs == old(entryIDs))
    {
      policies := policies[p.id := p];
      if !p.enabled {
        return true;
      }
      var schedule := p.schedule;
      if schedule == "" {
        schedule := "0 * * * *";
      }
      if !accepts(schedule) {
        return false;
      }
      var entryID := cron.AddFunc(p);
      entryIDs := entryIDs[p.id := entryID];
      return true;
    }

    method Uninstall(id: string)
      modifies this`policies, this`entryIDs, cron
      ensures View() == RemoveFrom(old(View()), id)
      ensures policies == old(policies) - {id} && entryIDs == old(entryIDs) - {id}
      ensures cron.entries == if id in old(entryIDs) then old(cron.entries) - {old(entryIDs)[id]} else old(cron.entries)
      ensures cron.nextID == old(cron.nextID)
    {
      if id in entryIDs {
        cron.Remove(entryIDs[id]);
        entryIDs := entryIDs - {id};
      }
      policies := policies - {id};
    }

    /** Notes a call that has just been carried out. */
    ghost method Log(op: Op, t: Table)
      requires t == After(history, accepts) && View() == Apply(t, op, accepts)
      modifies this`history
      ensures Valid() && history == old(history) + [op]
      ensures !Overlaps(t, op) && Refines(t, old(history), accepts) ==> Refines(View(), history, accepts)
    {
      EntriesAreAccountedFor(history, accepts);
      if Refines(t, history, accepts) {
        RefinesPerStep(t, history, op, accepts);
      }
      OneMoreCall(history, op, accepts);
      history := history + [op];
    }

    method AddPolicy(p: Policy) returns (ok: bool)
      requires Valid()
      modifies this, cron
      ensures Valid() && history == old(history) + [Add(p)]
      ensures var accepted := accepts(if p.schedule == "" then "0 * * * *" else p.schedule);
              && (ok <==> !p.enabled || accepted)
              && policies == old(policies)[p.id := p]
              && (if p.enabled && accepted
                  then && cron.entries == old(cron.entries)[old(cron.nextID) + 1 := p]
                       && entryIDs == old(entryIDs)[p.id := old(cron.nextID) + 1]
                  else cron.entries == old(cron.entries) && entryIDs == old(entryIDs))
      ensures !Overlaps(old(View()), Add(p)) && Refines(old(View()), old(history), accepts) ==>
                Refines(View(), history, accepts)
    {
      ghost var t := View();
      ok := Install(p);
      Log(Add(p), t);
    }

    method RemovePolicy(id: string)
      requires Valid()
      modifies this, cron
      ensures Valid() && history == old(history) + [Op.Remove(id)]
      ensures policies == old(policies) - {id} && entryIDs == old(entryIDs) - {id}
      ensures cron.entries == if id in old(entryIDs) then old(cron.entries) - {old(entryIDs)[id]} else old(cron.entries)
      ensures Refines(old(View()), old(history), accepts) ==> Refines(View(), history, accepts)
    {
      ghost var t := View();
      Uninstall(id);
      Log(Op.Remove(id), t);
    }

    /** Removal and addition of the same id: an update never overlaps. */
    method UpdatePolicy(p: Policy) returns (ok: bool)
      requires Valid()
      modifies this, cron
      ensures Valid() && history == old(history) + [Update(p)]
      ensures var accepted := accepts(if p.schedule == "" then "0 * * * *" else p.schedule);
              && (ok <==> !p.enabled || accepted)
              && policies == old(policies)[p.id := p]
              && (if p.enabled && accepted
                  then entryIDs == old(entryIDs)[p.id := old(cron.nextID) + 1] else entryIDs == old(entryIDs) - {p.id})
      ensures var rest := if p.id in old(entryIDs) then old(cron.entries) - {old(entryIDs)[p.id]}
                          else old(cron.entries);
              cron.entries == if p.id in entryIDs then rest[old(cron.nextID) + 1 := p] else rest
      ensures Refines(old(View()), old(history), accepts) ==> Refines(View(), history, accepts)
    {
      ghost var t := View();
      Uninstall(p.id);
      ok := Install(p);
      Log(Update(p), t);
    }
  }
}
