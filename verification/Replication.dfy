/**
 Replication jobs: `Replicate` and `fail` of internal/replication/replication.go.

 Each job runs in a goroutine of its own. A run is any interleaving of the steps of any number of
 jobs: launching, the locked section that starts the job, the three attempts (reading the snapshot,
 dialling, creating the copy), the locked sections that end it, and the events it tries to record.
 What the attempts do to the data is not part of this model; only whether they succeed.
 */
module Replication {
  import opened Sequences

  // Job ids matter only as names that are equal or not.
  type Id = nat

  datatype Status = Pending | Running | Done | Failed

  /** Which attempt failed, and what it said. */
  datatype Reason = NoReason | NotSent(why: string) | NotDialled(why: string) | NotCreated(why: string)

  /** The error text kept in the job. */
  function Text(r: Reason): (text: string)
    ensures text == "" <==> r.NoReason?
  {
    match r
    case NoReason => ""
    case NotSent(why) => "btrfs send: " + why
    case NotDialled(why) => "conectar a " + why
    case NotCreated(why) => "crear snapshot destino: " + why
  }

  datatype Job = Job(status: Status, error: Reason, startedAt: int, finishedAt: int)

  /** Where a job's goroutine stands. */
  datatype Place =
    | Launched
    | Sending
    | Dialling
    | Creating
    | Announcing
    | Completing
    | Failing(error: Reason)
    | Complaining
    | Over

  datatype Kind = Completed | Failure

  datatype Event = Event(id: Id, kind: Kind)

  /** The job structs, which of them the manager's map holds, where each goroutine stands, and the events recorded. */
  datatype State = State(structs: map<Id, Job>, table: set<Id>, places: map<Id, Place>, events: seq<Event>, now: int)

  datatype Step =
    | Launch(id: Id)                          // ReplicateAsync
    | Start(id: Id, at: int)                  // status, start time and map entry, under the lock
    | Attempt(id: Id, works: bool, why: string)
    | Announce(id: Id)                        // the completion event
    | Complete(id: Id, at: int)               // status and finish time, under the lock
    | Fail(id: Id, at: int)                   // status, error and finish time, under the lock
    | Complain(id: Id)                        // the failure event

  const EMPTY := State(map[], {}, map[], [], 0)

  /** The reason given by the attempt that fails. */
  function Explain(at: Place, why: string): (r: Reason)
    ensures !r.NoReason?
  {
    match at
    case Sending => NotSent(why)
    case Dialling => NotDialled(why)
    case _ => NotCreated(why)
  }

  predicate Stands(s: State, id: Id, at: Place) {
    id in s.places && s.places[id] == at && id in s.structs
  }

  /**
   The goroutine of the job is there, the clock has not gone back, a new job has an id of its own, and an
   attempt that works gives no error text.
   */
  predicate Enabled(s: State, step: Step) {
    match step
    case Launch(id) => id !in s.places && id !in s.structs
    case Start(id, at) => Stands(s, id, Launched) && s.now <= at
    case Attempt(id, works, why) =>
      && (Stands(s, id, Sending) || Stands(s, id, Dialling) || Stands(s, id, Creating))
      && (works ==> why == "")
    case Announce(id) => Stands(s, id, Announcing)
    case Complete(id, at) => Stands(s, id, Completing) && s.now <= at
    case Fail(id, at) => id in s.places && s.places[id].Failing? && id in s.structs && s.now <= at
    case Complain(id) => Stands(s, id, Complaining)
  }

  function Next(at: Place): Place {
    match at
    case Sending => Dialling
    case Dialling => Creating
    case _ => Announcing
  }

  function Apply(s: State, step: Step): State
    requires Enabled(s, step)
  {
    match step
    case Launch(id) => s.(structs := s.structs[id := Job(Pending, NoReason, 0, 0)], places := s.places[id := Launched])
    case Start(id, at) =>
      s.(structs := s.structs[id := s.structs[id].(status := Running, startedAt := at)],
         table := s.table + {id}, places := s.places[id := Sending], now := at)
    case Attempt(id, works, why) =>
      s.(places := s.places[id := if works then Next(s.places[id]) else Failing(Explain(s.places[id], why))])
    case Announce(id) => s.(places := s.places[id := Completing], events := s.events + [Event(id, Completed)])
    case Complete(id, at) =>
      s.(structs := s.structs[id := s.structs[id].(status := Done, finishedAt := at)],
         places := s.places[id := Over], now := at)
    case Fail(id, at) =>
      s.(structs := s.structs[id := s.structs[id].(status := Failed, error := s.places[id].error, finishedAt := at)],
         places := s.places[id := Complaining], now := at)
    case Complain(id) => s.(places := s.places[id := Over], events := s.events + [Event(id, Failure)])
  }

  predicate Legal(run: seq<Step>)
    decreases |run|, 0
  {
    run != [] ==> Legal(Front(run)) && Enabled(After(Front(run)), Last(run))
  }

  function After(run: seq<Step>): State
    requires Legal(run)
    decreases |run|, 1
  {
    if run == [] then EMPTY else Apply(After(Front(run)), Last(run))
  }

  // ---------- One job ----------

  function KindsOf(events: seq<Event>, id: Id): seq<Kind> {
    if events == [] then [] else
    KindsOf(Front(events), id) + (if Last(events).id == id then [Last(events).kind] else [])
  }

  lemma KindsOfOneMore(events: seq<Event>, e: Event, id: Id)
    ensures KindsOf(events + [e], id) == KindsOf(events, id) + (if e.id == id then [e.kind] else [])
  {
    assert Front(events + [e]) == events;
  }

  /** What a step adds to the events of a job. */
  function NewKinds(step: Step, id: Id): seq<Kind> {
    if step.id != id then [] else if step.Announce? then [Completed] else if step.Complain? then [Failure] else []
  }

  lemma KindsAfterStep(s: State, step: Step, id: Id)
    requires Enabled(s, step)
    ensures KindsOf(Apply(s, step).events, id) == KindsOf(s.events, id) + NewKinds(step, id)
  {
    match step
    case Announce(k) => KindsOfOneMore(s.events, Event(k, Completed), id);
    case Complain(k) => KindsOfOneMore(s.events, Event(k, Failure), id);
    case _ =>
  }

  /** What a job's place says about its struct, the manager's map and its events. */
  ghost predicate Consistent(s: State, id: Id) {
    if id !in s.places then id !in s.structs && id !in s.table && KindsOf(s.events, id) == []
    else
      && id in s.structs
      && (id in s.table <==> !s.places[id].Launched?)
      && InTime(s.structs[id], s.now)
      && InStep(s.places[id], s.structs[id], KindsOf(s.events, id))
  }

  predicate InTime(job: Job, now: int) {
    && (job.status != Pending ==> job.startedAt <= now)
    && (job.status == Done || job.status == Failed ==> job.startedAt <= job.finishedAt)
  }

  predicate InStep(at: Place, job: Job, kinds: seq<Kind>) {
    && (job.error.NoReason? <==> job.status != Failed)
    && (match at
        case Launched => job.status == Pending && kinds == []
        case Completing => job.status == Running && kinds == [Completed]
        case Complaining => job.status == Failed && kinds == []
        case Over => (job.status == Done && kinds == [Completed]) || (job.status == Failed && kinds == [Failure])
        case Failing(error) => job.status == Running && kinds == [] && !error.NoReason?
        case _ => job.status == Running && kinds == [])
  }

  lemma ConsistentPerStep(s: State, step: Step, id: Id)
    requires Enabled(s, step) && Consistent(s, id)
    ensures Consistent(Apply(s, step), id)
  {
    KindsAfterStep(s, step, id);
    if step.id == id {
      match step
      case Announce(_) =>
      case Complain(_) =>
      case Launch(_) =>
      case Start(_, _) =>
      case Attempt(_, _, _) =>
      case Complete(_, _) =>
      case Fail(_, _) =>
    } else {
      NothingElsewhere(s, step, id);
    }
  }

  lemma NothingElsewhere(s: State, step: Step, id: Id)
    requires Enabled(s, step) && step.id != id
    ensures var r := Apply(s, step);
            && (id in r.places <==> id in s.places) && (id in s.places ==> r.places[id] == s.places[id])
            && (id in r.structs <==> id in s.structs) && (id in s.structs ==> r.structs[id] == s.structs[id])
            && (id in r.table <==> id in s.table) && s.now <= r.now
  {
  }

  lemma {:induction false} JobsStayConsistent(run: seq<Step>, id: Id)
    requires Legal(run)
    ensures Consistent(After(run), id)
  {
    if run != [] {
      JobsStayConsistent(Front(run), id);
      ConsistentPerStep(After(Front(run)), Last(run), id);
    }
  }

  // ---------- What a run shows ----------

  /** The statuses a job goes through, each change once. */
  function Life(run: seq<Step>, id: Id): seq<Status>
    requires Legal(run)
  {
    if run == [] then [] else
    var before, s := Life(Front(run), id), After(run);
    if id in s.structs && (before == [] || Last(before) != s.structs[id].status)
    then before + [s.structs[id].status] else before
  }

  /**
   However jobs interleave, each goes from pending to running to done or failed, never skips a status,
   and never leaves the last two.
   */
  lemma {:induction false} StatusOnlyMovesOn(run: seq<Step>, id: Id)
    requires Legal(run)
    ensures Life(run, id) == if id !in After(run).structs then []
                             else match After(run).structs[id].status
                                  case Pending => [Pending]
                                  case Running => [Pending, Running]
                                  case Done => [Pending, Running, Done]
                                  case Failed => [Pending, Running, Failed]
  {
    if run != [] {
      StatusOnlyMovesOn(Front(run), id);
      JobsStayConsistent(Front(run), id);
      StatusPerStep(After(Front(run)), Last(run), id);
    }
  }

  lemma StatusPerStep(s: State, step: Step, id: Id)
    requires Enabled(s, step) && Consistent(s, id)
    ensures var r := Apply(s, step);
            && (id in s.structs ==> id in r.structs)
            && (id !in s.structs && id in r.structs ==> r.structs[id].status == Pending)
            && (id in s.structs ==>
                  var x, y := s.structs[id].status, r.structs[id].status;
                  x == y || (x == Pending && y == Running) || (x == Running && (y == Done || y == Failed)))
  {
    match step
    case Launch(_) =>
    case _ =>
  }

  predicate HasStarted(run: seq<Step>, id: Id) {
    exists i :: 0 <= i < |run| && run[i].Start? && run[i].id == id
  }

  /** The manager's map holds exactly the jobs that have been started. */
  lemma {:induction false} TableHoldsStartedJobs(run: seq<Step>, id: Id)
    requires Legal(run)
    ensures id in After(run).table <==> HasStarted(run, id)
  {
    if run != [] {
      TableHoldsStartedJobs(Front(run), id);
      var last := |run| - 1;
      if HasStarted(Front(run), id) {
        var i :| 0 <= i < |Front(run)| && Front(run)[i].Start? && Front(run)[i].id == id;
        assert run[i].Start? && run[i].id == id;
      }
      if HasStarted(run, id) && !(run[last].Start? && run[last].id == id) {
        var i :| 0 <= i < |run| && run[i].Start? && run[i].id == id;
        assert Front(run)[i].Start? && Front(run)[i].id == id;
      }
      if Last(run).Start? && Last(run).id == id {
        assert run[last].Start? && run[last].id == id;
      }
    }
  }

  /**
   Events and outcomes: a done job has tried its completion event and no other, a failure event is
   only there for a job already failed, with its error and a finish no earlier than its start, and a
   finished goroutine has tried exactly the event of its outcome.
   */
  lemma EventsMatchOutcomes(run: seq<Step>, id: Id)
    requires Legal(run)
    ensures var s := After(run);
            var kinds := KindsOf(s.events, id);
            && |kinds| <= 1
            && (id in s.structs && s.structs[id].status == Done ==> kinds == [Completed])
            && (Failure in kinds ==> id in s.structs && s.structs[id].status == Failed)
            && (Completed in kinds ==> id in s.structs && s.structs[id].status in {Running, Done})
            && (id in s.structs && s.structs[id].status == Failed ==>
                  Text(s.structs[id].error) != "" && s.structs[id].startedAt <= s.structs[id].finishedAt)
            && (id in s.structs && id in s.places && s.places[id].Over? ==>
                  kinds == if s.structs[id].status == Done then [Completed] else [Failure])
  {
    JobsStayConsistent(run, id);
  }

  // ---------- A job among others ends as it would alone ----------

  /** The part of the state that belongs to one job. */
  datatype Share = Absent | Share(job: Job, listed: bool, place: Place, kinds: seq<Kind>)

  function ShareOf(s: State, id: Id): Share {
    if id in s.structs && id in s.places
    then Share(s.structs[id], id in s.table, s.places[id], KindsOf(s.events, id)) else Absent
  }

  /** A step of the job, on its share alone. */
  function Turn(p: Share, step: Step): Share {
    if step.Launch? then Share(Job(Pending, NoReason, 0, 0), false, Launched, [])
    else if p.Absent? then p
    else match step
      case Launch(_) => p
      case Start(_, at) => p.(job := p.job.(status := Running, startedAt := at), listed := true, place := Sending)
      case Attempt(_, works, why) => p.(place := if works then Next(p.place) else Failing(Explain(p.place, why)))
      case Announce(_) => p.(place := Completing, kinds := p.kinds + [Completed])
      case Complete(_, at) => p.(job := p.job.(status := Done, finishedAt := at), place := Over)
      case Fail(_, at) =>
        var error := if p.place.Failing? then p.place.error else NoReason;
        p.(job := p.job.(status := Failed, error := error, finishedAt := at), place := Complaining)
      case Complain(_) => p.(place := Over, kinds := p.kinds + [Failure])
  }

  function Turns(p: Share, steps: seq<Step>): Share
    decreases |steps|
  {
    if steps == [] then p else Turns(Turn(p, steps[0]), steps[1..])
  }

  function Own(run: seq<Step>, id: Id): seq<Step> {
    if run == [] then [] else
    if Last(run).id == id then Own(Front(run), id) + [Last(run)] else Own(Front(run), id)
  }

  lemma {:induction false} TurnsOneMore(p: Share, steps: seq<Step>, step: Step)
    ensures Turns(p, steps + [step]) == Turn(Turns(p, steps), step)
    decreases |steps|
  {
    if steps == [] {
      assert [step][1..] == [];
    } else {
      TurnsOneMore(Turn(p, steps[0]), steps[1..], step);
      assert (steps + [step])[1..] == steps[1..] + [step];
    }
  }

  /** What a step does to its own job's struct, entry and place. */
  lemma OwnStep(s: State, step: Step)
    requires Enabled(s, step)
    ensures var r, id := Apply(s, step), step.id;
            && id in r.structs && id in r.places && (step.Launch? || (id in s.structs && id in s.places))
            && (match step
                case Launch(_) => r.structs[id] == Job(Pending, NoReason, 0, 0) && r.places[id] == Launched
                case Start(_, at) =>
                  r.structs[id] == s.structs[id].(status := Running, startedAt := at) && r.places[id] == Sending
                case Attempt(_, works, why) =>
                  && r.structs[id] == s.structs[id]
                  && r.places[id] == if works then Next(s.places[id]) else Failing(Explain(s.places[id], why))
                case Announce(_) => r.structs[id] == s.structs[id] && r.places[id] == Completing
                case Complete(_, at) =>
                  r.structs[id] == s.structs[id].(status := Done, finishedAt := at) && r.places[id] == Over
                case Fail(_, at) =>
                  && s.places[id].Failing? && r.places[id] == Complaining
                  && r.structs[id] == s.structs[id].(status := Failed, error := s.places[id].error, finishedAt := at)
                case Complain(_) => r.structs[id] == s.structs[id] && r.places[id] == Over)
            && (id in r.table <==> id in s.table || step.Start?)
  {
  }

  lemma ShareAfterStep(s: State, step: Step, id: Id)
    requires Enabled(s, step) && Consistent(s, id)
    ensures ShareOf(Apply(s, step), id) == if step.id == id then Turn(ShareOf(s, id), step) else ShareOf(s, id)
  {
    KindsAfterStep(s, step, id);
    if step.id == id {
      OwnStep(s, step);
      ShareAfterOwnStep(s, step);
    } else {
      NothingElsewhere(s, step, id);
    }
  }

  lemma ShareAfterOwnStep(s: State, step: Step)
    requires Enabled(s, step) && Consistent(s, step.id)
    ensures ShareOf(Apply(s, step), step.id) == Turn(ShareOf(s, step.id), step)
  {
    KindsAfterStep(s, step, step.id);
    OwnStep(s, step);
  }

  /** What becomes of a job depends on its own steps only. */
  lemma {:induction false} JobsDoNotInterfere(run: seq<Step>, id: Id)
    requires Legal(run)
    ensures ShareOf(After(run), id) == Turns(Absent, Own(run, id))
  {
    if run != [] {
      JobsDoNotInterfere(Front(run), id);
      JobsStayConsistent(Front(run), id);
      ShareAfterStep(After(Front(run)), Last(run), id);
      TurnsOneMore(Absent, Own(Front(run), id), Last(run));
    }
  }

  /** Which of the three attempts fails, and what it says. */
  datatype Outcome = Works | SendFails(why: string) | DialFails(why: string) | CreateFails(why: string)

  /** The steps of a job from launch to end. */
  function Script(id: Id, o: Outcome, start: int, finish: int): seq<Step> {
    [Launch(id), Start(id, start)] +
    match o
    case Works =>
      [Attempt(id, true, ""), Attempt(id, true, ""), Attempt(id, true, ""), Announce(id), Complete(id, finish)]
    case SendFails(why) => [Attempt(id, false, why), Fail(id, finish), Complain(id)]
    case DialFails(why) => [Attempt(id, true, ""), Attempt(id, false, why), Fail(id, finish), Complain(id)]
    case CreateFails(why) =>
      [Attempt(id, true, ""), Attempt(id, true, ""), Attempt(id, false, why), Fail(id, finish), Complain(id)]
  }

  function FinalJob(o: Outcome, start: int, finish: int): Job {
    match o
    case Works => Job(Done, NoReason, start, finish)
    case SendFails(why) => Job(Failed, NotSent(why), start, finish)
    case DialFails(why) => Job(Failed, NotDialled(why), start, finish)
    case CreateFails(why) => Job(Failed, NotCreated(why), start, finish)
  }

  function FinalKind(o: Outcome): Kind {
    if o.Works? then Completed else Failure
  }

  lemma ScriptRuns(id: Id, o: Outcome, start: int, finish: int)
    ensures Turns(Absent, Script(id, o, start, finish)) == Share(FinalJob(o, start, finish), true, Over, [FinalKind(o)])
  {
    var p := Share(Job(Running, NoReason, start, 0), true, Sending, []);
    var steps := Script(id, o, start, finish);
    assert Turns(Absent, steps) == Turns(p, steps[2..]) by {
      assert steps[1..][1..] == steps[2..];
    }
    match o
    case Works =>
      assert steps[2..] == [steps[2], steps[3], steps[4], steps[5], steps[6]];
      TurnsOfFive(p, steps[2], steps[3], steps[4], steps[5], steps[6]);
    case SendFails(why) =>
      assert steps[2..] == [Attempt(id, false, why), Fail(id, finish), Complain(id)];
      TurnsOfThree(p, steps[2], steps[3], steps[4]);
    case DialFails(why) =>
      assert steps[2..] == [Attempt(id, true, "")] + [Attempt(id, false, why), Fail(id, finish), Complain(id)];
      assert steps[2..][1..] == [steps[3], steps[4], steps[5]];
      TurnsOfThree(Turn(p, steps[2]), steps[3], steps[4], steps[5]);
    case CreateFails(why) =>
      assert steps[2..] == [steps[2], steps[3], steps[4], steps[5], steps[6]];
      TurnsOfFive(p, steps[2], steps[3], steps[4], steps[5], steps[6]);
  }

  lemma TurnsOfThree(p: Share, a: Step, b: Step, c: Step)
    ensures Turns(p, [a, b, c]) == Turn(Turn(Turn(p, a), b), c)
  {
    assert [a, b, c][1..] == [b, c] && [b, c][1..] == [c] && [c][1..] == [];
    assert Turns(Turn(Turn(p, a), b), [c]) == Turn(Turn(Turn(p, a), b), c);
  }

  lemma TurnsOfFive(p: Share, a: Step, b: Step, c: Step, d: Step, e: Step)
    ensures Turns(p, [a, b, c, d, e]) == Turn(Turn(Turn(Turn(Turn(p, a), b), c), d), e)
  {
    assert [a, b, c, d, e][1..] == [b, c, d, e] && [b, c, d, e][1..] == [c, d, e];
    TurnsOfThree(Turn(Turn(p, a), b), c, d, e);
  }

  lemma EndsAsScripted(run: seq<Step>, id: Id, o: Outcome, start: int, finish: int)
    requires Legal(run) && Own(run, id) == Script(id, o, start, finish)
    ensures var s := After(run);
            && Stands(s, id, Over) && s.structs[id] == FinalJob(o, start, finish)
            && id in s.table && KindsOf(s.events, id) == [FinalKind(o)]
  {
    JobsDoNotInterfere(run, id);
    ScriptRuns(id, o, start, finish);
  }

  // ---------- Nothing holds a job up ----------

  /** Where a job stands after the first n steps of its script. */
  function PlaceInScript(o: Outcome, n: nat): Place {
    if n <= 1 then Launched
    else if n == 2 then Sending
    else match o
      case Works =>
        if n == 3 then Dialling else if n == 4 then Creating else if n == 5 then Announcing
        else if n == 6 then Completing else Over
      case SendFails(why) => if n == 3 then Failing(NotSent(why)) else if n == 4 then Complaining else Over
      case DialFails(why) =>
        if n == 3 then Dialling else if n == 4 then Failing(NotDialled(why))
        else if n == 5 then Complaining else Over
      case CreateFails(why) =>
        if n == 3 then Dialling else if n == 4 then Creating else if n == 5 then Failing(NotCreated(why))
        else if n == 6 then Complaining else Over
  }

  lemma RunGrows(run: seq<Step>, step: Step)
    ensures Legal(run + [step]) <==> Legal(run) && Enabled(After(run), step)
    ensures Legal(run + [step]) ==> After(run + [step]) == Apply(After(run), step)
  {
    assert Front(run + [step]) == run && Last(run + [step]) == step;
  }

  /** A job that stands before the n-th step of its script can take it, and then stands before the next. */
  ghost predicate Stages(s: State, id: Id, o: Outcome, start: int, finish: int, n: nat) {
    && s.now <= (if n < 2 then start else finish)
    && (if n == 0 then id !in s.places && id !in s.structs else Stands(s, id, PlaceInScript(o, n)))
  }

  lemma NextInScript(s: State, id: Id, o: Outcome, start: int, finish: int, n: nat)
    requires start <= finish && n < |Script(id, o, start, finish)| && Stages(s, id, o, start, finish, n)
    ensures var step := Script(id, o, start, finish)[n];
            Enabled(s, step) && Stages(Apply(s, step), id, o, start, finish, n + 1)
  {
    match o
    case Works =>
    case SendFails(_) =>
    case DialFails(_) =>
    case CreateFails(_) =>
  }

  lemma OneMore(run: seq<Step>, steps: seq<Step>, n: nat)
    requires 0 < n <= |steps|
    ensures run + steps[..n] == (run + steps[..n - 1]) + [steps[n - 1]]
  {
  }

  lemma {:induction false} ScriptSoFar(run: seq<Step>, id: Id, o: Outcome, start: int, finish: int, n: nat)
    requires Legal(run) && Stages(After(run), id, o, start, finish, 0) && start <= finish
    requires n <= |Script(id, o, start, finish)|
    ensures var steps := run + Script(id, o, start, finish)[..n];
            Legal(steps) && Stages(After(steps), id, o, start, finish, n)
  {
    var steps := Script(id, o, start, finish);
    if n == 0 {
      assert run + steps[..0] == run;
    } else {
      var before := run + steps[..n - 1];
      ScriptSoFar(run, id, o, start, finish, n - 1);
      OneMore(run, steps, n);
      NextInScript(After(before), id, o, start, finish, n - 1);
      RunGrows(before, steps[n - 1]);
    }
  }

  /** A script can always be run to its end: a new job's steps are possible whatever other jobs are doing. */
  lemma ScriptIsPossible(run: seq<Step>, id: Id, o: Outcome, start: int, finish: int)
    requires Legal(run) && id !in After(run).places && After(run).now <= start <= finish
    ensures Legal(run + Script(id, o, start, finish))
  {
    JobsStayConsistent(run, id);
    var steps := Script(id, o, start, finish);
    ScriptSoFar(run, id, o, start, finish, |steps|);
    assert steps[..|steps|] == steps;
  }

  // ---------- A job shows all its steps ----------

  /** The attempts of a job that has come to fail for a reason. */
  function FailedAttempts(id: Id, r: Reason): seq<Step> {
    match r
    case NoReason => []
    case NotSent(why) => [Attempt(id, false, why)]
    case NotDialled(why) => [Attempt(id, true, ""), Attempt(id, false, why)]
    case NotCreated(why) => [Attempt(id, true, ""), Attempt(id, true, ""), Attempt(id, false, why)]
  }

  /** The steps a job must have taken to be at a place with a struct. */
  function Story(id: Id, at: Place, job: Job): seq<Step> {
    var begun, works := [Launch(id), Start(id, job.startedAt)], Attempt(id, true, "");
    match at
    case Launched => [Launch(id)]
    case Sending => begun
    case Dialling => begun + [works]
    case Creating => begun + [works, works]
    case Announcing => begun + [works, works, works]
    case Completing => begun + [works, works, works, Announce(id)]
    case Failing(error) => begun + FailedAttempts(id, error)
    case Complaining => begun + FailedAttempts(id, job.error) + [Fail(id, job.finishedAt)]
    case Over =>
      if job.status == Done then begun + [works, works, works, Announce(id), Complete(id, job.finishedAt)]
      else begun + FailedAttempts(id, job.error) + [Fail(id, job.finishedAt), Complain(id)]
  }

  lemma StoryGrows(s: State, step: Step)
    requires Enabled(s, step) && Consistent(s, step.id)
    ensures var r, id := Apply(s, step), step.id;
            && id in r.structs && id in r.places
            && Story(id, r.places[id], r.structs[id]) ==
               (if id in s.places then Story(id, s.places[id], s.structs[id]) else []) + [step]
  {
    OwnStep(s, step);
  }

  /** Whatever the other jobs do, a job's place and struct show exactly the steps it has taken, in order. */
  lemma {:induction false} JobTellsItsStory(run: seq<Step>, id: Id)
    requires Legal(run)
    ensures var s := After(run);
            if id in s.places then id in s.structs && Own(run, id) == Story(id, s.places[id], s.structs[id])
            else Own(run, id) == []
  {
    if run != [] {
      JobTellsItsStory(Front(run), id);
      JobsStayConsistent(Front(run), id);
      if Last(run).id == id {
        StoryGrows(After(Front(run)), Last(run));
      } else {
        NothingElsewhere(After(Front(run)), Last(run), id);
      }
    }
  }

  function OutcomeOf(job: Job): Outcome {
    match job.error
    case NoReason => Works
    case NotSent(why) => SendFails(why)
    case NotDialled(why) => DialFails(why)
    case NotCreated(why) => CreateFails(why)
  }

  /**
   In the middle of any other jobs, a job's goroutine is over exactly when its own steps are one of the
   four scripts, and then its struct, entry and event are what that script's attempts decide.
   */
  lemma JobEndsAsAlone(run: seq<Step>, id: Id)
    requires Legal(run)
    ensures Stands(After(run), id, Over) <==>
            exists o, start, finish :: Own(run, id) == Script(id, o, start, finish)
    ensures forall o, start, finish :: Own(run, id) == Script(id, o, start, finish) ==>
              var s := After(run);
              && id in s.structs && s.structs[id] == FinalJob(o, start, finish)
              && id in s.table && KindsOf(s.events, id) == [FinalKind(o)]
  {
    forall o, start, finish | Own(run, id) == Script(id, o, start, finish)
      ensures var s := After(run);
              && Stands(s, id, Over) && s.structs[id] == FinalJob(o, start, finish)
              && id in s.table && KindsOf(s.events, id) == [FinalKind(o)]
    {
      EndsAsScripted(run, id, o, start, finish);
    }
    var s := After(run);
    if Stands(s, id, Over) {
      JobsStayConsistent(run, id);
      JobTellsItsStory(run, id);
      StoryIsScript(id, s.structs[id]);
    }
  }

  lemma StoryIsScript(id: Id, job: Job)
    requires job.status == Done || job.status == Failed
    requires job.error.NoReason? <==> job.status == Done
    ensures Story(id, Over, job) == Script(id, OutcomeOf(job), job.startedAt, job.finishedAt)
  {
    match job.error
    case NoReason =>
    case NotSent(_) =>
    case NotDialled(_) =>
    case NotCreated(_) =>
  }
}

/** The replication manager as the program has it. */
module ReplicationServer {
  import opened Replication

  /** A job struct; the manager's map and the goroutine share it. */
  class Task {
    const id: Id
    var status: Status
    var error: Reason
    var startedAt: int
    var finishedAt: int

    constructor (id: Id)
      ensures this.id == id && View() == Job(Pending, NoReason, 0, 0)
    {
      this.id := id;
      status, error, startedAt, finishedAt := Pending, NoReason, 0, 0;
    }

    ghost function View(): Job
      reads this
    {
      Job(status, error, startedAt, finishedAt)
    }
  }

  class Manager {
    var jobs: map<Id, Task>
    /** Events handed to the database, oldest first. */
    var events: seq<Event>

    constructor ()
      ensures jobs == map[] && events == []
    {
      jobs, events := map[], [];
    }

    /** The three attempts in order, each abandoning the job when it fails. */
    method Replicate(job: Task, o: Outcome, start: int, finish: int) returns (ok: bool)
      requires job.View() == Job(Pending, NoReason, 0, 0)
      modifies this, job
      ensures ok <==> o.Works?
      ensures job.status == (if ok then Done else Failed) && job.startedAt == start && job.finishedAt == finish
      ensures Text(job.error) == match o
                                 case Works => ""
                                 case SendFails(why) => "btrfs send: " + why
                                 case DialFails(why) => "conectar a " + why
                                 case CreateFails(why) => "crear snapshot destino: " + why
      ensures job.View() == FinalJob(o, start, finish)
      ensures jobs == old(jobs)[job.id := job]
      ensures events == old(events) + [Event(job.id, FinalKind(o))]
      ensures events == old(events) + [Event(job.id, if ok then Completed else Failure)]
    {
      job.status := Running;
      job.startedAt := start;
      jobs := jobs[job.id := job];
      if o.SendFails? {
        Abandon(job, NotSent(o.why), finish);
        return false;
      }
      if o.DialFails? {
        Abandon(job, NotDialled(o.why), finish);
        return false;
      }
      if o.CreateFails? {
        Abandon(job, NotCreated(o.why), finish);
        return false;
      }
      events := events + [Event(job.id, Completed)];
      job.status := Done;
      job.finishedAt := finish;
      return true;
    }

    /** `fail`. */
    method Abandon(job: Task, error: Reason, now: int)
      modifies this`events, job
      ensures job.View() == old(job.View()).(status := Failed, error := error, finishedAt := now)
      ensures events == old(events) + [Event(job.id, Failure)]
    {
      job.status := Failed;
      job.error := error;
      job.finishedAt := now;
      events := events + [Event(job.id, Failure)];
    }

    method GetJob(id: Id) returns (found: bool, job: Task?)
      ensures found <==> id in jobs
      ensures found ==> job == jobs[id]
      ensures !found ==> job == null
    {
      if id in jobs {
        return true, jobs[id];
      }
      return false, null;
    }

    method ListJobs() returns (list: seq<Task>)
      ensures |list| == |jobs|
      ensures forall t :: t in list <==> t in jobs.Values
    {
      list := [];
      var rest := jobs.Keys;
      while rest != {}
        invariant rest <= jobs.Keys && |list| + |rest| == |jobs|
        invariant forall t :: t in list <==> exists id :: id in jobs && id !in rest && jobs[id] == t
        decreases rest
      {
        assert |jobs.Keys| == |jobs|;
        var id :| id in rest;
        rest := rest - {id};
        list := list + [jobs[id]];
      }
    }
  }
}
