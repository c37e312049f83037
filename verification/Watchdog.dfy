/**
 The node watchdog of internal/alerts/watchdog.go and the node rows of internal/storage/db.go.

 The status of a node is kept twice: in the watchdog's own `lastStatus` and in the node's row.
 Marking a node rewrites its `last_seen` whatever the mark is, so the watchdog feeds on its own
 writes; the theorem about a lone node below is what comes of that. Times are nanoseconds.

 A run is a sequence of steps. One step is one turn of the loop in `check`, with the row as it was
 listed, the clock read for `time.Since`, the clock read inside `UpdateNodeStatus`, and whether
 that write succeeded (`check` ignores the error); the others are the row writes made elsewhere in
 the server, which may fall between two turns of the same loop.
 */
module Watchdog {
  import opened Quotients
  import opened Sequences

  /** Two minutes. */
  const THRESHOLD: int := 120_000_000_000

  /** The status strings in use; `Unset` is the empty string, which is also what an absent key reads as. */
  datatype Status = Unset | Online | Offline | Other(text: string)

  datatype Node = Node(hostname: string, address: string, status: Status, lastSeen: int)

  datatype Level = Critical | Info

  /** The texts of alerts: fixed words around a host name, and in one case an address. */
  datatype Text =
    | NodeOffline(hostname: string)
    | DoesNotAnswer(hostname: string, address: string)
    | NodeRecovered(hostname: string)
    | OnlineAgain(hostname: string)

  datatype Alert = Alert(level: Level, title: Text, message: Text, nodeId: string)

  /** The two alerts about a node. */
  function Lost(id: string, n: Node): Alert {
    Alert(Critical, NodeOffline(n.hostname), DoesNotAnswer(n.hostname, n.address), id)
  }

  function Recovered(id: string, n: Node): Alert {
    Alert(Info, NodeRecovered(n.hostname), OnlineAgain(n.hostname), id)
  }

  /** `lastStatus`, the node rows, and the alerts sent so far. */
  datatype State = State(remembered: map<string, Status>, rows: map<string, Node>, alerts: seq<Alert>)

  datatype Step =
    | Visit(id: string, listed: Node, checked: int, stamped: int, ok: bool)
    | Stream(id: string, at: int, ok: bool)      // StreamEvents marks the node online
    | Register(id: string, node: Node)           // RegisterNode inserts a row

  function Remembered(s: State, id: string): Status {
    if id in s.remembered then s.remembered[id] else Unset
  }

  /** `UpdateNodeStatus`: both columns of the row, if there is one. */
  function Mark(rows: map<string, Node>, id: string, status: Status, at: int, ok: bool): map<string, Node> {
    if ok && id in rows then rows[id := rows[id].(status := status, lastSeen := at)] else rows
  }

  predicate Silent(listed: Node, checked: int) {
    checked - listed.lastSeen > THRESHOLD
  }

  /** The branch of `check` that a row takes. */
  datatype Verdict = Falls | Recovers | Seen | Unchanged

  function Judge(remembered: Status, listed: Node, checked: int): Verdict {
    if Silent(listed, checked) && remembered != Offline then Falls
    else if !Silent(listed, checked) && remembered == Offline then Recovers
    else if !Silent(listed, checked) && remembered == Unset then Seen
    else Unchanged
  }

  function VerdictOf(s: State, v: Step): Verdict
    requires v.Visit?
  {
    Judge(Remembered(s, v.id), v.listed, v.checked)
  }

  function Apply(s: State, step: Step): State {
    match step
    case Visit(id, n, _, stamped, ok) =>
      (match VerdictOf(s, step)
       case Falls =>
         State(s.remembered[id := Offline], Mark(s.rows, id, Offline, stamped, ok),
               s.alerts + [Lost(id, n)])
       case Recovers =>
         State(s.remembered[id := Online], Mark(s.rows, id, Online, stamped, ok),
               s.alerts + [Recovered(id, n)])
       case Seen => s.(remembered := s.remembered[id := Online])
       case Unchanged => s)
    case Stream(id, at, ok) => s.(rows := Mark(s.rows, id, Online, at, ok))
    case Register(id, node) => if id in s.rows then s else s.(rows := s.rows[id := node])
  }

  function Play(s: State, steps: seq<Step>): State {
    if steps == [] then s else Apply(Play(s, Front(steps)), Last(steps))
  }

  /** A watchdog just started over the given rows. */
  function Started(rows: map<string, Node>): State {
    State(map[], rows, [])
  }

  // ---------- The alerts of a node ----------

  /** The levels of the alerts about one node, in order. */
  function LevelsOf(alerts: seq<Alert>, id: string): seq<Level> {
    if alerts == [] then [] else
    LevelsOf(Front(alerts), id) + (if Last(alerts).nodeId == id then [Last(alerts).level] else [])
  }

  /** What a step adds to the alerts about a node. */
  function NewLevels(s: State, step: Step, id: string): seq<Level> {
    if !step.Visit? || step.id != id then []
    else match VerdictOf(s, step)
      case Falls => [Critical]
      case Recovers => [Info]
      case _ => []
  }

  lemma LevelsAfterStep(s: State, step: Step, id: string)
    ensures LevelsOf(Apply(s, step).alerts, id) == LevelsOf(s.alerts, id) + NewLevels(s, step, id)
  {
    if |Apply(s, step).alerts| > |s.alerts| {
      assert Front(Apply(s, step).alerts) == s.alerts;
    }
  }

  /**
   What an alert says comes from one visit: its node and host are those of the row listed for that visit,
   it is critical when the row was older than two minutes at the read of the clock and info otherwise.
   */
  predicate ReportsOn(a: Alert, v: Step) {
    && v.Visit? && a.nodeId == v.id
    && (if v.checked - v.listed.lastSeen > 120_000_000_000
        then a.level == Critical && a.title == NodeOffline(v.listed.hostname) &&
             a.message == DoesNotAnswer(v.listed.hostname, v.listed.address)
        else a.level == Info && a.title == NodeRecovered(v.listed.hostname) &&
             a.message == OnlineAgain(v.listed.hostname))
  }

  lemma NewAlertReports(s: State, step: Step)
    ensures var r := Apply(s, step).alerts;
            && s.alerts <= r && |r| <= |s.alerts| + 1
            && (|r| > |s.alerts| ==> ReportsOn(Last(r), step))
  {
  }

  /** Over any run: the alerts sent are one for some of the visits, in their order, each about its own row. */
  lemma {:induction false} AlertsReportVisits(s: State, steps: seq<Step>) returns (at: seq<int>)
    ensures s.alerts <= Play(s, steps).alerts
    ensures |at| == |Play(s, steps).alerts| - |s.alerts|
    ensures forall k :: 0 <= k < |at| ==>
              0 <= at[k] < |steps| && ReportsOn(Play(s, steps).alerts[|s.alerts| + k], steps[at[k]])
    ensures forall j, k :: 0 <= j < k < |at| ==> at[j] < at[k]
  {
    if steps == [] {
      at := [];
    } else {
      var before := AlertsReportVisits(s, Front(steps));
      var was, n := Play(s, Front(steps)), |steps| - 1;
      NewAlertReports(was, Last(steps));
      forall k | 0 <= k < |before| ensures ReportsOn(Play(s, steps).alerts[|s.alerts| + k], steps[before[k]]) {
        assert was.alerts[|s.alerts| + k] == Play(s, steps).alerts[|s.alerts| + k];
        assert Front(steps)[before[k]] == steps[before[k]];
      }
      at := if |Play(s, steps).alerts| > |was.alerts| then before + [n] else before;
    }
  }

  // ---------- One node at a time ----------

  datatype Row = Absent | Present(node: Node)

  /** The part of the state that belongs to one node. */
  datatype Share = Share(remembered: Status, row: Row, levels: seq<Level>)

  function ShareOf(s: State, id: string): Share {
    Share(Remembered(s, id), if id in s.rows then Present(s.rows[id]) else Absent, LevelsOf(s.alerts, id))
  }

  function MarkRow(row: Row, status: Status, at: int, ok: bool): Row {
    if ok && row.Present? then Present(row.node.(status := status, lastSeen := at)) else row
  }

  /** A step of the node, on its share alone. */
  function Turn(p: Share, step: Step): Share {
    match step
    case Visit(_, n, checked, stamped, ok) =>
      (match Judge(p.remembered, n, checked)
       case Falls => Share(Offline, MarkRow(p.row, Offline, stamped, ok), p.levels + [Critical])
       case Recovers => Share(Online, MarkRow(p.row, Online, stamped, ok), p.levels + [Info])
       case Seen => p.(remembered := Online)
       case Unchanged => p)
    case Stream(_, at, ok) => p.(row := MarkRow(p.row, Online, at, ok))
    case Register(_, node) => if p.row.Present? then p else p.(row := Present(node))
  }

  function Turns(p: Share, steps: seq<Step>): Share {
    if steps == [] then p else Turn(Turns(p, Front(steps)), Last(steps))
  }

  function Own(steps: seq<Step>, id: string): seq<Step> {
    if steps == [] then [] else
    if Last(steps).id == id then Own(Front(steps), id) + [Last(steps)] else Own(Front(steps), id)
  }

  /** A row of one node is not touched by a mark on another. */
  lemma MarkElsewhere(rows: map<string, Node>, k: string, status: Status, at: int, ok: bool, id: string)
    requires k != id
    ensures var r := Mark(rows, k, status, at, ok);
            (id in r <==> id in rows) && (id in rows ==> r[id] == rows[id])
  {
  }

  lemma RememberedElsewhere(s: State, step: Step, id: string)
    requires step.id != id
    ensures Remembered(Apply(s, step), id) == Remembered(s, id)
  {
    if step.Visit? {
      match VerdictOf(s, step)
      case Falls =>
      case Recovers =>
      case Seen =>
      case Unchanged =>
    }
  }

  lemma RowsElsewhere(s: State, step: Step, id: string)
    requires step.id != id
    ensures var r := Apply(s, step); (id in r.rows <==> id in s.rows) && (id in s.rows ==> r.rows[id] == s.rows[id])
  {
    match step
    case Visit(k, _, _, stamped, ok) =>
      MarkElsewhere(s.rows, k, Offline, stamped, ok, id);
      MarkElsewhere(s.rows, k, Online, stamped, ok, id);
    case Stream(k, at, ok) => MarkElsewhere(s.rows, k, Online, at, ok, id);
    case Register(_, _) =>
  }

  lemma NothingElsewhere(s: State, step: Step, id: string)
    requires step.id != id
    ensures ShareOf(Apply(s, step), id) == ShareOf(s, id)
  {
    LevelsAfterStep(s, step, id);
    RememberedElsewhere(s, step, id);
    RowsElsewhere(s, step, id);
  }

  lemma ShareAfterStep(s: State, step: Step, id: string)
    ensures ShareOf(Apply(s, step), id) == if step.id == id then Turn(ShareOf(s, id), step) else ShareOf(s, id)
  {
    if step.id != id {
      NothingElsewhere(s, step, id);
    } else {
      LevelsAfterStep(s, step, id);
      match step
      case Visit(_, n, checked, _, _) => assert VerdictOf(s, step) == Judge(ShareOf(s, id).remembered, n, checked);
      case Stream(_, _, _) =>
      case Register(_, _) =>
    }
  }

  /** What becomes of a node depends on its own steps only. */
  lemma {:induction false} NodesDoNotInterfere(s: State, steps: seq<Step>, id: string)
    ensures ShareOf(Play(s, steps), id) == Turns(ShareOf(s, id), Own(steps, id))
  {
    if steps != [] {
      NodesDoNotInterfere(s, Front(steps), id);
      ShareAfterStep(Play(s, Front(steps)), Last(steps), id);
      if Last(steps).id == id {
        assert Front(Own(steps, id)) == Own(Front(steps), id);
      }
    }
  }

  // ---------- Alerts alternate ----------

  /** Critical, info, critical, and so on. */
  predicate Alternates(levels: seq<Level>) {
    levels == [] || (Alternates(Front(levels)) && Last(levels) == NextLevel(Front(levels)))
  }

  function NextLevel(levels: seq<Level>): Level {
    if levels == [] || Last(levels) == Info then Critical else Info
  }

  lemma AlternatesGrows(levels: seq<Level>)
    requires Alternates(levels)
    ensures Alternates(levels + [NextLevel(levels)])
  {
    assert Front(levels + [NextLevel(levels)]) == levels;
  }

  predicate Alternating(p: Share) {
    Alternates(p.levels) && (p.remembered == Offline <==> NextLevel(p.levels) == Info)
  }

  lemma TurnAlternates(p: Share, step: Step)
    requires Alternating(p)
    ensures Alternating(Turn(p, step))
  {
    AlternatesGrows(p.levels);
  }

  /**
   Whatever the clock does, whatever was listed, and whether or not row writes succeed: the alerts
   about a node go critical, info, critical, and so on, and the watchdog remembers the node offline
   exactly when the latest of them was critical.
   */
  lemma {:induction false} AlertsAlternate(rows: map<string, Node>, steps: seq<Step>, id: string)
    ensures var s := Play(Started(rows), steps);
            var levels := LevelsOf(s.alerts, id);
            && Alternates(levels)
            && (Remembered(s, id) == Offline <==> levels != [] && Last(levels) == Critical)
  {
    if steps != [] {
      AlertsAlternate(rows, Front(steps), id);
      var s := Play(Started(rows), Front(steps));
      ShareAfterStep(s, Last(steps), id);
      TurnAlternates(ShareOf(s, id), Last(steps));
    }
  }

  // ---------- Two copies of the status ----------

  /** A row marked offline is remembered offline. */
  ghost predicate Agree(s: State) {
    forall id :: id in s.rows && s.rows[id].status == Offline ==> Remembered(s, id) == Offline
  }

  /** Rows enter the database online. */
  ghost predicate RegistersOnline(step: Step) {
    step.Register? ==> step.node.status != Offline
  }

  /** The one write whose failure matters: the one that takes an offline mark off a row. */
  ghost predicate LosesRecovery(s: State, step: Step) {
    && step.Visit? && VerdictOf(s, step).Recovers? && !step.ok
    && step.id in s.rows && s.rows[step.id].status == Offline
  }

  /** Agreement survives a step exactly when the step does not lose a recovery. */
  lemma AgreementPerStep(s: State, step: Step)
    requires Agree(s) && RegistersOnline(step)
    ensures Agree(Apply(s, step)) <==> !LosesRecovery(s, step)
  {
    var r := Apply(s, step);
    if LosesRecovery(s, step) {
      assert step.id in r.rows && r.rows[step.id].status == Offline && Remembered(r, step.id) == Online;
    } else {
      forall id | id in r.rows && r.rows[id].status == Offline ensures Remembered(r, id) == Offline {
        assert id == step.id || (id in s.rows && s.rows[id] == r.rows[id]);
      }
    }
  }

  ghost predicate AgreesThroughout(s: State, steps: seq<Step>) {
    Agree(Play(s, steps)) && (steps != [] ==> AgreesThroughout(s, Front(steps)))
  }

  ghost predicate LosesNoRecovery(s: State, steps: seq<Step>) {
    steps != [] ==> !LosesRecovery(Play(s, Front(steps)), Last(steps)) && LosesNoRecovery(s, Front(steps))
  }

  /** Over whole runs: the copies agree after every step exactly when no recovery write is lost. */
  lemma {:induction false} CopiesAgree(s: State, steps: seq<Step>)
    requires Agree(s) && forall i :: 0 <= i < |steps| ==> RegistersOnline(steps[i])
    ensures AgreesThroughout(s, steps) <==> LosesNoRecovery(s, steps)
  {
    if steps != [] {
      CopiesAgree(s, Front(steps));
      if AgreesThroughout(s, Front(steps)) {
        AgreementPerStep(Play(s, Front(steps)), Last(steps));
      }
    }
  }

  /**
   A lost recovery write does happen: a watchdog just started sees a node fall and a minute later, on
   finding its own mark, recover, and the second write fails. The row then says offline for a node remembered online.
   */
  lemma LostRecoveryExample()
    ensures var t, t' := THRESHOLD + 1, THRESHOLD + 60_000_000_001;
            var up, down := Node("h", "a", Online, 0), Node("h", "a", Offline, t);
            var start, steps := Started(map["n" := up]), [Visit("n", up, t, t, true), Visit("n", down, t', t', false)];
            && Play(start, Front(steps)).rows == map["n" := down]
            && Play(start, steps).rows["n"].status == Offline && Remembered(Play(start, steps), "n") == Online
            && Agree(start) && !Agree(Play(start, steps))
  {
    var t, t' := THRESHOLD + 1, THRESHOLD + 60_000_000_001;
    var up, down := Node("h", "a", Online, 0), Node("h", "a", Offline, t);
    var start, fall, rise := Started(map["n" := up]), Visit("n", up, t, t, true), Visit("n", down, t', t', false);
    assert Front([fall, rise]) == [fall] && Front([fall]) == [];
    assert Play(start, [fall]) == Apply(start, fall);
    assert Play(start, [fall, rise]) == Apply(Apply(start, fall), rise);
    assert Apply(start, fall) == State(map["n" := Offline], map["n" := down], [Lost("n", up)]);
    assert "n" in Apply(Apply(start, fall), rise).rows;
  }

  // ---------- A stream reconciles the copies ----------

  /** What a step writes is not dated before `at`. */
  predicate Since(step: Step, at: int) {
    match step
    case Visit(_, _, _, stamped, _) => at <= stamped
    case Stream(_, t, _) => at <= t
    case Register(_, _) => true
  }

  predicate OneVisitAtMost(steps: seq<Step>) {
    forall i, j :: 0 <= i < j < |steps| ==> !steps[i].Visit? || !steps[j].Visit?
  }

  /** A node remembered offline after it opened a stream: seen to recover by a visit since, or yet to be. */
  predicate Reconciling(q: Share, levels: seq<Level>, at: int, visited: bool) {
    && q.row.Present? && q.row.node.lastSeen >= at && q.row.node.status == Online
    && (if q.remembered == Offline then q.levels == levels
        else visited && q.remembered == Online && q.levels == levels + [Info])
  }

  predicate HasVisit(steps: seq<Step>) {
    exists i :: 0 <= i < |steps| && steps[i].Visit?
  }

  lemma {:induction false} StaysReconciling(p: Share, id: string, at: int, between: seq<Step>)
    requires p.row.Present? && p.remembered == Offline && OneVisitAtMost(between)
    requires forall i :: 0 <= i < |between| ==> Since(between[i], at)
    ensures Reconciling(Turns(Turn(p, Stream(id, at, true)), between), p.levels, at, HasVisit(between))
  {
    if between != [] {
      var before, n := Front(between), |between| - 1;
      assert forall i :: 0 <= i < n ==> before[i] == between[i];
      StaysReconciling(p, id, at, before);
      assert HasVisit(before) ==> HasVisit(between) && !between[n].Visit?;
      assert between[n].Visit? ==> HasVisit(between);
    }
  }

  /**
   A node remembered offline opens a stream at time `at`. Whatever the rest of the system does, however
   many more streams the node opens, and whether or not the check then under way still comes to the node
   with the row it listed before: once a turn of a check that listed the row after the stream, and comes
   within the threshold, is over, both copies are online and one recovery alert has been sent.
   */
  lemma StreamIsReconciled(s: State, steps: seq<Step>, id: string, at: int, between: seq<Step>, j: nat, v: Step)
    requires id in s.rows && Remembered(s, id) == Offline
    requires Own(steps, id) == [Stream(id, at, true)] + between + [v] && OneVisitAtMost(between)
    requires forall i :: 0 <= i < |between| ==> Since(between[i], at)
    requires v.Visit? && v.checked <= at + THRESHOLD && j <= |between|
    requires v.listed == ListedRow(Turns(ShareOf(s, id), [Stream(id, at, true)] + between[..j]))
    ensures var r := Play(s, steps);
            && Remembered(r, id) == Online && id in r.rows && r.rows[id].status == Online
            && LevelsOf(r.alerts, id) == LevelsOf(s.alerts, id) + [Info]
  {
    var p := ShareOf(s, id);
    var before := [Stream(id, at, true)] + between;
    NodesDoNotInterfere(s, steps, id);
    assert Front(before + [v]) == before;
    AfterStream(p, id, at, between);
    assert OneVisitAtMost(between[..j]);
    AfterStream(p, id, at, between[..j]);
    VisitReconciles(Turns(p, before), p.levels, at, HasVisit(between), v);
  }

  lemma AfterStream(p: Share, id: string, at: int, between: seq<Step>)
    requires p.row.Present? && p.remembered == Offline && OneVisitAtMost(between)
    requires forall i :: 0 <= i < |between| ==> Since(between[i], at)
    ensures Reconciling(Turns(p, [Stream(id, at, true)] + between), p.levels, at, HasVisit(between))
  {
    var first := [Stream(id, at, true)];
    assert Front(first) == [] && Turns(p, first) == Turn(p, Stream(id, at, true));
    TurnsConcat(p, first, between);
    StaysReconciling(p, id, at, between);
  }

  lemma VisitReconciles(q: Share, levels: seq<Level>, at: int, visited: bool, v: Step)
    requires Reconciling(q, levels, at, visited)
    requires v.Visit? && v.checked <= at + THRESHOLD && v.listed.lastSeen >= at
    ensures var r := Turn(q, v);
            r.remembered == Online && r.row.Present? && r.row.node.status == Online && r.levels == levels + [Info]
  {
  }

  lemma {:induction false} TurnsConcat(p: Share, a: seq<Step>, b: seq<Step>)
    ensures Turns(p, a + b) == Turns(Turns(p, a), b)
  {
    if b == [] {
      assert a + b == a;
    } else {
      TurnsConcat(p, a, Front(b));
      assert Front(a + b) == a + Front(b);
    }
  }

  function ListedRow(p: Share): Node {
    if p.row.Present? then p.row.node else Node("", "", Unset, 0)
  }

  // ---------- A node nothing else writes ----------

  /** `n` checks of a node at `start`, `start + d` and so on, each finding the row as the last one left it. */
  function LoneChecks(p: Share, id: string, start: int, d: int, n: nat): seq<Step> {
    if n == 0 then [] else
    var before := LoneChecks(p, id, start, d, n - 1);
    var now := Tick(start, d, n - 1);
    before + [Visit(id, ListedRow(Turns(p, before)), now, now, true)]
  }

  /** The time of the check that comes `n` checks after the one at `start`. */
  function Tick(start: int, d: int, n: nat): int {
    if n == 0 then start else Tick(start, d, n - 1) + d
  }

  lemma {:induction false} TickIs(start: int, d: int, n: nat)
    ensures Tick(start, d, n) == start + n * d
  {
    if n > 0 {
      TickIs(start, d, n - 1);
      assert n * d == (n - 1) * d + d;
    }
  }

  function Lone(p: Share, id: string, start: int, d: int, n: nat): Share {
    Turns(p, LoneChecks(p, id, start, d, n))
  }

  lemma LoneOneMore(p: Share, id: string, start: int, d: int, n: nat)
    ensures var r := Lone(p, id, start, d, n);
            Lone(p, id, start, d, n + 1) == Turn(r, Visit(id, ListedRow(r), Tick(start, d, n), Tick(start, d, n), true))
  {
    assert Front(LoneChecks(p, id, start, d, n + 1)) == LoneChecks(p, id, start, d, n);
  }

  function Period(d: int): int
    requires d > 0
  {
    THRESHOLD / d + 2
  }

  /** The alert of the check that comes `n` checks after the first offline verdict. */
  function Beat(n: nat, d: int): seq<Level>
    requires d > 0
  {
    var r := n % Period(d);
    if r == 0 then [Critical] else if r == 1 then [Info] else []
  }

  /** The share just after the check at time `now`, `r` checks after an offline verdict. */
  predicate InCycle(p: Share, now: int, r: int, d: int) {
    && p.row.Present?
    && p.row.node.lastSeen == (if r <= 1 then now else now - (r - 1) * d)
    && p.remembered == (if r == 0 then Offline else Online)
  }

  lemma CycleStep(p: Share, id: string, now: int, r: nat, d: int)
    requires 0 < d <= THRESHOLD && r < Period(d) && InCycle(p, now, r, d)
    ensures var q := Turn(p, Visit(id, ListedRow(p), now + d, now + d, true));
            var r' := if r == Period(d) - 1 then 0 else r + 1;
            && InCycle(q, now + d, r', d)
            && q.levels == p.levels + (if r' == 0 then [Critical] else if r' == 1 then [Info] else [])
  {
    Fits(THRESHOLD, 1, d);
    Fits(THRESHOLD, r, d);
    assert r >= 1 ==> (r - 1) * d + d == r * d;
  }

  lemma FirstVerdict(p: Share, id: string, start: int, d: int)
    requires p.row.Present? && p.remembered != Offline && start - p.row.node.lastSeen > THRESHOLD
    ensures var q := Lone(p, id, start, d, 1);
            InCycle(q, start, 0, d) && q.levels == p.levels + [Critical]
  {
    LoneOneMore(p, id, start, d, 0);
  }

  /** From one check of the cycle to the next, places counted from the first verdict. */
  lemma CycleGoesOn(p: Share, id: string, start: int, d: int, n: nat)
    requires 0 < d <= THRESHOLD && n > 0
    requires InCycle(Lone(p, id, start, d, n), Tick(start, d, n - 1), (n - 1) % Period(d), d)
    ensures Lone(p, id, start, d, n + 1).levels == Lone(p, id, start, d, n).levels + Beat(n, d)
    ensures InCycle(Lone(p, id, start, d, n + 1), Tick(start, d, n), n % Period(d), d)
  {
    Fits(THRESHOLD, 1, d);
    LoneOneMore(p, id, start, d, n);
    NextRemainder(n - 1, Period(d));
    var r := (n - 1) % Period(d);
    CycleStep(Lone(p, id, start, d, n), id, Tick(start, d, n - 1), r, d);
  }

  /**
   The watchdog's own heartbeat. Let a node fall offline at a check, let nothing else write its row,
   and let checks follow every `d` nanoseconds, no more than the threshold apart. Then the marks the
   watchdog writes make it change its mind for ever: the run repeats every THRESHOLD / d + 2 checks,
   with one critical alert, one recovery alert at the next check, and silence for the rest.
   */
  lemma {:induction false} LoneNodeCycles(p: Share, id: string, start: int, d: int, n: nat)
    requires p.row.Present? && p.remembered != Offline && start - p.row.node.lastSeen > THRESHOLD
    requires 0 < d <= THRESHOLD
    ensures Lone(p, id, start, d, n + 1).levels == Lone(p, id, start, d, n).levels + Beat(n, d)
    ensures InCycle(Lone(p, id, start, d, n + 1), Tick(start, d, n), n % Period(d), d)
  {
    if n == 0 {
      Fits(THRESHOLD, 1, d);
      RemainderIs(0, 0, 0, Period(d));
      FirstVerdict(p, id, start, d);
    } else {
      LoneNodeCycles(p, id, start, d, n - 1);
      CycleGoesOn(p, id, start, d, n);
    }
  }

  /** A row marked offline `n` long intervals ago is still silent, and nothing is done about it. */
  lemma StaysOffline(p: Share, id: string, start: int, d: int, n: nat)
    requires d > THRESHOLD && n > 0 && p.row.Present? && p.row.node.lastSeen == start && p.remembered == Offline
    ensures Turn(p, Visit(id, ListedRow(p), Tick(start, d, n), Tick(start, d, n), true)) == p
  {
    TickIs(start, d, n);
    MulMono(d, 1, n);
  }

  /** Checks further apart than the threshold find the node silent every time, and say so once. */
  lemma {:induction false} LoneNodeStaysOffline(p: Share, id: string, start: int, d: int, n: nat)
    requires p.row.Present? && p.remembered != Offline && start - p.row.node.lastSeen > THRESHOLD
    requires d > THRESHOLD
    ensures Lone(p, id, start, d, n + 1) ==
            Share(Offline, Present(p.row.node.(status := Offline, lastSeen := start)), p.levels + [Critical])
  {
    LoneOneMore(p, id, start, d, n);
    if n > 0 {
      LoneNodeStaysOffline(p, id, start, d, n - 1);
      StaysOffline(Lone(p, id, start, d, n), id, start, d, n);
    }
  }

  // ---------- The loop of `check` ----------

  /** What one turn of the loop gets from its surroundings: two clock reads and the fate of a row write. */
  datatype Moment = Moment(checked: int, stamped: int, ok: bool)

  function Visits(listing: seq<(string, Node)>, moments: seq<Moment>): (steps: seq<Step>)
    requires |listing| == |moments|
    ensures |steps| == |listing|
    ensures forall i :: 0 <= i < |listing| ==>
              && steps[i].Visit? && steps[i].id == listing[i].0 && steps[i].listed == listing[i].1
              && steps[i].checked == moments[i].checked && steps[i].stamped == moments[i].stamped
              && steps[i].ok == moments[i].ok
  {
    seq(|listing|, i requires 0 <= i < |listing| =>
      Visit(listing[i].0, listing[i].1, moments[i].checked, moments[i].stamped, moments[i].ok))
  }

  /** The rows, each once, most recently seen first. */
  ghost predicate IsListing(listing: seq<(string, Node)>, rows: map<string, Node>) {
    && (forall id :: id in rows ==> exists i :: 0 <= i < |listing| && listing[i].0 == id)
    && (forall i :: 0 <= i < |listing| ==> listing[i].0 in rows && listing[i].1 == rows[listing[i].0])
    && (forall i, j :: 0 <= i < j < |listing| ==>
          listing[i].0 != listing[j].0 && listing[i].1.lastSeen >= listing[j].1.lastSeen)
  }

  lemma {:induction false} OwnConcat(a: seq<Step>, b: seq<Step>, id: string)
    ensures Own(a + b, id) == Own(a, id) + Own(b, id)
  {
    if b == [] {
      assert a + b == a;
    } else {
      OwnConcat(a, Front(b), id);
      assert Front(a + b) == a + Front(b);
    }
  }

  lemma {:induction false} OwnElsewhere(steps: seq<Step>, id: string)
    requires forall i :: 0 <= i < |steps| ==> steps[i].id != id
    ensures Own(steps, id) == []
  {
    if steps != [] {
      OwnElsewhere(Front(steps), id);
    }
  }

  lemma {:induction false} OwnSingle(steps: seq<Step>, i: nat, id: string)
    requires i < |steps| && steps[i].id == id
    requires forall k :: 0 <= k < |steps| && k != i ==> steps[k].id != id
    ensures Own(steps, id) == [steps[i]]
  {
    if i == |steps| - 1 {
      OwnElsewhere(Front(steps), id);
    } else {
      OwnSingle(Front(steps), i, id);
    }
  }

  /** A full check visits each node exactly once, with the row it has. */
  lemma OneVisitPerCheck(listing: seq<(string, Node)>, moments: seq<Moment>, rows: map<string, Node>, id: string)
    requires IsListing(listing, rows) && |listing| == |moments| && id in rows
    ensures exists i :: 0 <= i < |listing| && listing[i].0 == id && Own(Visits(listing, moments), id) ==
              [Visit(id, rows[id], moments[i].checked, moments[i].stamped, moments[i].ok)]
  {
    var i :| 0 <= i < |listing| && listing[i].0 == id;
    assert forall k :: 0 <= k < |listing| && k != i ==> listing[k].0 != id;
    OwnSingle(Visits(listing, moments), i, id);
  }

  function VisitsIn(steps: seq<Step>): seq<Step> {
    if steps == [] then [] else
    VisitsIn(Front(steps)) + (if Last(steps).Visit? then [Last(steps)] else [])
  }

  lemma {:induction false} OwnAreVisits(steps: seq<Step>, id: string)
    requires forall i :: 0 <= i < |steps| && steps[i].id == id ==> steps[i].Visit?
    ensures Own(VisitsIn(steps), id) == Own(steps, id)
  {
    if steps != [] {
      OwnAreVisits(Front(steps), id);
      var last := steps[|steps| - 1];
      if last.Visit? {
        assert VisitsIn(steps) == VisitsIn(Front(steps)) + [last];
        assert Front(VisitsIn(steps)) == VisitsIn(Front(steps));
      } else {
        assert VisitsIn(steps) == VisitsIn(Front(steps)) && last.id != id;
      }
    }
  }

  /**
   What happens between two checks, the listing the next check takes, and what happens while it works
   through it: its visits, in order, and any steps of the rest of the system among them.
   */
  datatype Round = Round(others: seq<Step>, listing: seq<(string, Node)>, moments: seq<Moment>, check: seq<Step>)

  function RunOf(rounds: seq<Round>): seq<Step> {
    if rounds == [] then [] else RunOf(Front(rounds)) + (Last(rounds).others + Last(rounds).check)
  }

  /**
   Every check works from a true listing, nothing but checks touches the node, and a check comes to it
   every `d`, reads one time there and writes its row without failing.
   */
  ghost predicate Unattended(s: State, rounds: seq<Round>, id: string, start: int, d: int) {
    rounds != [] ==>
      && Unattended(s, Front(rounds), id, start, d)
      && TrueRound(s, RunOf(Front(rounds)), Last(rounds), id, Tick(start, d, |rounds| - 1))
  }

  ghost predicate TrueRound(s: State, before: seq<Step>, r: Round, id: string, now: int) {
    && (forall i :: 0 <= i < |r.others| ==> r.others[i].id != id)
    && IsListing(r.listing, Play(s, before + r.others).rows) && |r.moments| == |r.listing|
    && VisitsIn(r.check) == Visits(r.listing, r.moments)
    && (forall i :: 0 <= i < |r.check| && r.check[i].id == id ==> r.check[i].Visit?)
    && (forall i :: 0 <= i < |r.listing| && r.listing[i].0 == id ==> r.moments[i] == Moment(now, now, true))
  }

  lemma {:induction false} RowsStay(p: Share, steps: seq<Step>)
    requires p.row.Present?
    ensures Turns(p, steps).row.Present?
  {
    if steps != [] {
      RowsStay(p, Front(steps));
    }
  }

  /** Steps elsewhere leave the node's row to be listed as its own steps left it. */
  lemma ListedAsLeft(s: State, before: seq<Step>, r: Round, id: string, now: int)
    requires id in s.rows && TrueRound(s, before, r, id, now)
    ensures Own(before + r.others, id) == Own(before, id)
    ensures var rows := Play(s, before + r.others).rows;
            id in rows && rows[id] == ListedRow(Turns(ShareOf(s, id), Own(before, id)))
  {
    OwnElsewhere(r.others, id);
    OwnConcat(before, r.others, id);
    assert Own(before + r.others, id) == Own(before, id);
    NodesDoNotInterfere(s, before + r.others, id);
    RowsStay(ShareOf(s, id), Own(before, id));
  }

  lemma OwnOfRound(s: State, before: seq<Step>, r: Round, id: string, now: int)
    requires id in s.rows && TrueRound(s, before, r, id, now)
    ensures Own(before + (r.others + r.check), id) ==
            Own(before, id) + [Visit(id, ListedRow(Turns(ShareOf(s, id), Own(before, id))), now, now, true)]
  {
    var rows := Play(s, before + r.others).rows;
    ListedAsLeft(s, before, r, id, now);
    OneVisitPerCheck(r.listing, r.moments, rows, id);
    OwnAreVisits(r.check, id);
    OwnOfParts(before, r.others, r.check, id);
  }

  lemma OwnOfParts(a: seq<Step>, b: seq<Step>, c: seq<Step>, id: string)
    ensures Own(a + (b + c), id) == Own(a + b, id) + Own(c, id)
  {
    assert a + (b + c) == (a + b) + c;
    OwnConcat(a + b, c, id);
  }

  lemma {:induction false} UnattendedIsLone(s: State, rounds: seq<Round>, id: string, start: int, d: int)
    requires Unattended(s, rounds, id, start, d) && id in s.rows
    ensures Own(RunOf(rounds), id) == LoneChecks(ShareOf(s, id), id, start, d, |rounds|)
  {
    if rounds != [] {
      UnattendedIsLone(s, Front(rounds), id, start, d);
      OwnOfRound(s, RunOf(Front(rounds)), Last(rounds), id, Tick(start, d, |rounds| - 1));
    }
  }

  lemma UnattendedShare(s: State, rounds: seq<Round>, id: string, start: int, d: int)
    requires Unattended(s, rounds, id, start, d) && id in s.rows
    ensures ShareOf(Play(s, RunOf(rounds)), id) == Lone(ShareOf(s, id), id, start, d, |rounds|)
  {
    NodesDoNotInterfere(s, RunOf(rounds), id);
    UnattendedIsLone(s, rounds, id, start, d);
  }

  /**
   The cycle in the running system: other nodes may be visited, streamed and registered as they
   please, between checks and in the middle of one. With checks exactly a minute apart, the server's
   interval, an unattended node is reported lost every four minutes, and recovered a minute after each
   report though it was never heard from. Two such intervals are the threshold exactly: with checks a
   little further apart it is every three of them.
   */
  lemma UnattendedNodeCycles(s: State, rounds: seq<Round>, id: string, start: int, d: int)
    requires rounds != [] && Unattended(s, rounds, id, start, d)
    requires id in s.rows && Remembered(s, id) != Offline && start - s.rows[id].lastSeen > THRESHOLD
    requires 0 < d <= THRESHOLD
    ensures LevelsOf(Play(s, RunOf(rounds)).alerts, id) ==
            LevelsOf(Play(s, RunOf(Front(rounds))).alerts, id) + Beat(|rounds| - 1, d)
    ensures d == 60_000_000_000 ==> Period(d) == 4
    ensures 60_000_000_000 < d <= THRESHOLD ==> Period(d) == 3
  {
    UnattendedShare(s, rounds, id, start, d);
    UnattendedShare(s, Front(rounds), id, start, d);
    LoneNodeCycles(ShareOf(s, id), id, start, d, |rounds| - 1);
    Fits(THRESHOLD, 1, d);
    Fits(THRESHOLD, 2, d);
  }

  /** And with checks further apart than the threshold: one critical alert, and nothing ever after. */
  lemma UnattendedNodeStaysOffline(s: State, rounds: seq<Round>, id: string, start: int, d: int)
    requires rounds != [] && Unattended(s, rounds, id, start, d)
    requires id in s.rows && Remembered(s, id) != Offline && start - s.rows[id].lastSeen > THRESHOLD
    requires d > THRESHOLD
    ensures var r := Play(s, RunOf(rounds));
            && LevelsOf(r.alerts, id) == LevelsOf(s.alerts, id) + [Critical] && Remembered(r, id) == Offline
            && id in r.rows && r.rows[id] == s.rows[id].(status := Offline, lastSeen := start)
  {
    UnattendedShare(s, rounds, id, start, d);
    LoneNodeStaysOffline(ShareOf(s, id), id, start, d, |rounds| - 1);
  }
}

/** The watchdog and the node table as the program has them. */
module WatchdogServer {
  import opened Watchdog
  import opened Sequences

  /** A listing of the rows that are not pending, none of them older than a pending one. */
  ghost predicate ListsSoFar(nodes: seq<(string, Node)>, rows: map<string, Node>, pending: set<string>)
    requires pending <= rows.Keys
  {
    && IsListing(nodes, rows - pending)
    && (forall i, k :: 0 <= i < |nodes| && k in pending ==> nodes[i].1.lastSeen >= rows[k].lastSeen)
  }

  lemma ExtendListing(nodes: seq<(string, Node)>, rows: map<string, Node>, pending: set<string>, id: string)
    requires pending <= rows.Keys && ListsSoFar(nodes, rows, pending)
    requires id in pending && forall k :: k in pending ==> rows[k].lastSeen <= rows[id].lastSeen
    ensures ListsSoFar(nodes + [(id, rows[id])], rows, pending - {id})
  {
    var more := nodes + [(id, rows[id])];
    forall k | k in rows - (pending - {id}) ensures exists i :: 0 <= i < |more| && more[i].0 == k {
      if k == id {
        assert more[|nodes|].0 == k;
      } else {
        assert k in rows - pending;
        var i :| 0 <= i < |nodes| && nodes[i].0 == k;
        assert more[i].0 == k;
      }
    }
  }

  class NodeTable {
    var rows: map<string, Node>

    constructor ()
      ensures rows == map[]
    {
      rows := map[];
    }

    method CreateNode(id: string, n: Node, works: bool) returns (ok: bool)
      modifies this
      ensures ok <==> works && id !in old(rows)
      ensures rows == if ok then old(rows)[id := n] else old(rows)
    {
      ok := works && id !in rows;
      if ok {
        rows := rows[id := n];
      }
    }

    /** Writes the status and the time together; a failure leaves the row as it was. */
    method UpdateNodeStatus(id: string, status: Status, now: int, ok: bool)
      modifies this
      ensures rows == Mark(old(rows), id, status, now, ok)
      ensures rows == if ok && id in old(rows)
                      then old(rows)[id := Node(old(rows)[id].hostname, old(rows)[id].address, status, now)]
                      else old(rows)
    {
      if ok && id in rows {
        rows := rows[id := rows[id].(status := status, lastSeen := now)];
      }
    }

    method ListNodes() returns (nodes: seq<(string, Node)>)
      ensures IsListing(nodes, rows) && |nodes| == |rows|
      ensures forall id, n :: (id, n) in nodes <==> id in rows && rows[id] == n
      ensures forall i, j :: 0 <= i < j < |nodes| ==>
                nodes[i].0 != nodes[j].0 && nodes[i].1.lastSeen >= nodes[j].1.lastSeen
    {
      nodes := [];
      var pending := rows.Keys;
      while pending != {}
        invariant pending <= rows.Keys && |nodes| + |pending| == |rows|
        invariant ListsSoFar(nodes, rows, pending)
        decreases pending
      {
        assert |rows.Keys| == |rows|;
        LatestExists(rows, pending);
        var id :| id in pending && forall k :: k in pending ==> rows[k].lastSeen <= rows[id].lastSeen;
        ExtendListing(nodes, rows, pending, id);
        nodes := nodes + [(id, rows[id])];
        pending := pending - {id};
      }
      assert rows - pending == rows;
    }
  }

  lemma {:induction false} LatestExists(rows: map<string, Node>, ids: set<string>)
    requires ids != {} && ids <= rows.Keys
    ensures exists id :: id in ids && forall k :: k in ids ==> rows[k].lastSeen <= rows[id].lastSeen
    decreases ids
  {
    var a :| a in ids;
    if ids == {a} {
      assert forall k :: k in ids ==> rows[k].lastSeen <= rows[a].lastSeen;
    } else {
      LatestExists(rows, ids - {a});
      var b :| b in ids - {a} && forall k :: k in ids - {a} ==> rows[k].lastSeen <= rows[b].lastSeen;
      var c := if rows[a].lastSeen <= rows[b].lastSeen then b else a;
      assert forall k :: k in ids ==> k == a || k in ids - {a};
      assert c in ids && forall k :: k in ids ==> rows[k].lastSeen <= rows[c].lastSeen;
    }
  }

  lemma PlayOneMore(s: State, steps: seq<Step>, i: nat)
    requires i < |steps|
    ensures Play(s, steps[..i + 1]) == Apply(Play(s, steps[..i]), steps[i])
  {
    assert Front(steps[..i + 1]) == steps[..i];
  }

  /** The alert is filed under this id and names this node's host. */
  predicate Names(a: Alert, id: string, n: Node) {
    a.nodeId == id && a.title.hostname == n.hostname && a.message.hostname == n.hostname
  }

  lemma NewAlertsAreListed(s: State, nodes: seq<(string, Node)>, moments: seq<Moment>)
    requires |nodes| == |moments|
    ensures var sent := Play(s, Visits(nodes, moments)).alerts;
            && s.alerts <= sent
            && forall a :: a in sent[|s.alerts|..] ==> exists i :: 0 <= i < |nodes| && Names(a, nodes[i].0, nodes[i].1)
  {
    var steps, sent := Visits(nodes, moments), Play(s, Visits(nodes, moments)).alerts;
    var at := AlertsReportVisits(s, steps);
    forall a | a in sent[|s.alerts|..] ensures exists i :: 0 <= i < |nodes| && Names(a, nodes[i].0, nodes[i].1) {
      var k :| 0 <= k < |at| && sent[|s.alerts|..][k] == a;
      assert ReportsOn(sent[|s.alerts| + k], steps[at[k]]);
      assert Names(a, nodes[at[k]].0, nodes[at[k]].1);
    }
  }

  class Monitor {
    const db: NodeTable
    var lastStatus: map<string, Status>
    /** Alerts handed to `Send`, oldest first. */
    var sent: seq<Alert>

    constructor (db: NodeTable)
      ensures this.db == db && lastStatus == map[] && sent == []
    {
      this.db := db;
      lastStatus := map[];
      sent := [];
    }

    ghost function View(): State
      reads this, db
    {
      State(lastStatus, db.rows, sent)
    }

    /**
     One turn of the loop of `check`. A row older than two minutes falls offline unless it is remembered
     offline; a younger one recovers when it is remembered offline, and is remembered online when the node
     is new. Falling and recovering send one alert and try one write of the row.
     */
    method Look(id: string, n: Node, m: Moment)
      modifies this, db
      ensures View() == Apply(old(View()), Visit(id, n, m.checked, m.stamped, m.ok))
      ensures var late, down := m.checked - n.lastSeen > 120_000_000_000,
                                id in old(lastStatus) && old(lastStatus)[id] == Offline;
              var unseen := id !in old(lastStatus) || old(lastStatus)[id] == Unset;
              && lastStatus == (if late && !down then old(lastStatus)[id := Offline]
                                else if !late && (down || unseen) then old(lastStatus)[id := Online]
                                else old(lastStatus))
              && sent == old(sent) +
                   (if late && !down
                    then [Alert(Critical, NodeOffline(n.hostname), DoesNotAnswer(n.hostname, n.address), id)]
                    else if !late && down
                    then [Alert(Info, NodeRecovered(n.hostname), OnlineAgain(n.hostname), id)] else [])
              && db.rows == (if late != down && m.ok && id in old(db.rows)
                             then old(db.rows)[id := old(db.rows)[id].(status := if late then Offline else Online,
                                                                      lastSeen := m.stamped)]
                             else old(db.rows))
    {
      var isOffline := m.checked - n.lastSeen > THRESHOLD;
      var prevStatus := if id in lastStatus then lastStatus[id] else Unset;
      if isOffline && prevStatus != Offline {
        lastStatus := lastStatus[id := Offline];
        sent := sent + [Lost(id, n)];
        db.UpdateNodeStatus(id, Offline, m.stamped, m.ok);
      } else if !isOffline && prevStatus == Offline {
        lastStatus := lastStatus[id := Online];
        sent := sent + [Recovered(id, n)];
        db.UpdateNodeStatus(id, Online, m.stamped, m.ok);
      } else if !isOffline && prevStatus == Unset {
        lastStatus := lastStatus[id := Online];
      }
    }

    /** The loop of `check`. */
    method LookAtAll(nodes: seq<(string, Node)>, moments: seq<Moment>)
      requires |moments| == |nodes|
      modifies this, db
      ensures View() == Play(old(View()), Visits(nodes, moments))
    {
      ghost var steps := Visits(nodes, moments);
      var i := 0;
      while i < |nodes|
        invariant 0 <= i <= |nodes|
        invariant View() == Play(old(View()), steps[..i])
      {
        PlayOneMore(old(View()), steps, i);
        Look(nodes[i].0, nodes[i].1, moments[i]);
        i := i + 1;
      }
      assert steps[..i] == steps;
    }

    /**
     `check`: one visit for each row of a listing taken at the start, or nothing when the listing fails.
     Every new alert is about a listed row, under its id and with its host name.
     */
    method Check(listOk: bool, moments: seq<Moment>) returns (nodes: seq<(string, Node)>)
      requires |moments| == |db.rows|
      modifies this, db
      ensures listOk ==> IsListing(nodes, old(db.rows)) && |nodes| == |moments| &&
                         View() == Play(old(View()), Visits(nodes, moments))
      ensures !listOk ==> View() == old(View())
      ensures old(sent) <= sent
      ensures forall a :: a in sent[|old(sent)|..] ==> exists i :: 0 <= i < |nodes| && Names(a, nodes[i].0, nodes[i].1)
    {
      nodes := [];
      if !listOk {
        return;
      }
      nodes := db.ListNodes();
      ghost var was := View();
      LookAtAll(nodes, moments);
      NewAlertsAreListed(was, nodes, moments);
    }
  }

  /** The two handlers of the server that write node rows. */
  class NodeHandlers {
    const db: NodeTable

    constructor (db: NodeTable)
      ensures this.db == db
    {
      this.db := db;
    }

    /** A registration under a new id inserts an online row, just seen, unless the write fails. */
    method RegisterNode(id: string, hostname: string, address: string, now: int, works: bool) returns (ok: bool)
      modifies db
      ensures ok <==> works && id !in old(db.rows)
      ensures db.rows == if ok then old(db.rows)[id := Node(hostname, address, Online, now)] else old(db.rows)
      ensures works ==> forall w: State :: w.rows == old(db.rows) ==>
                Apply(w, Register(id, Node(hostname, address, Online, now))) == w.(rows := db.rows)
    {
      ok := db.CreateNode(id, Node(hostname, address, Online, now), works);
    }

    /** The write at the head of a stream; a stream for no node writes nothing. */
    method StreamEvents(id: string, now: int, works: bool)
      modifies db
      ensures db.rows == if id != "" && works && id in old(db.rows)
                         then old(db.rows)[id := Node(old(db.rows)[id].hostname, old(db.rows)[id].address, Online, now)]
                         else old(db.rows)
      ensures id != "" ==> forall w: State :: w.rows == old(db.rows) ==>
                Apply(w, Stream(id, now, works)) == w.(rows := db.rows)
    {
      if id != "" {
        db.UpdateNodeStatus(id, Online, now, works);
      }
    }
  }
}
