/**
 The WebSocket hub of internal/hub/hub.go: broadcasts fan out to bounded per-client queues while
 clients come and go.

 The first half is a state machine in which any number of broadcasts overlap. A broadcast takes
 the read lock, offers its event to the clients one at a time and in any order, and lets go; a
 join or a leave takes the write lock, changes the client set and lets go; the goroutine that
 writes to a client takes events from its queue at any moment. A run is a sequence of such steps,
 and the theorems are about what a run of any length contains. The second half is the hub as a
 class, whose `Broadcast` loop does what one undisturbed broadcast of the state machine does.
 */
module Hub {
  import opened Sequences

  const CAPACITY: nat := 32

  datatype Event = Event(kind: string, payload: string, time: int)

  type Client = int
  type Cast = int

  /** The send of `Broadcast`: into the channel when it has room, nowhere otherwise. */
  function Push(q: seq<Event>, e: Event): seq<Event> {
    if |q| < CAPACITY then q + [e] else q
  }

  // ---------- The state machine ----------

  /** Who holds the write lock. */
  datatype Writer = Nobody | Joining(c: Client) | Leaving(c: Client)

  /** A broadcast that holds the read lock: its event, and the clients its loop has yet to reach. */
  datatype Loop = Loop(event: Event, left: set<Client>)

  datatype State = State(
    clients: set<Client>,
    queue: map<Client, seq<Event>>,
    casting: map<Cast, Loop>,
    finished: set<Cast>,
    writer: Writer)

  datatype Step =
    | Start(b: Cast, e: Event)      // Broadcast takes the read lock
    | Offer(b: Cast, to: Client)    // one turn of its loop
    | Finish(b: Cast)               // the loop is over, the read lock released
    | Lock(w: Writer)               // ServeWS takes the write lock, to join or to leave
    | Commit                        // it changes the client set and lets go
    | Take(from: Client)            // the client's writer receives from the channel

  const EMPTY := State({}, map[], map[], {}, Nobody)

  ghost predicate Enabled(s: State, step: Step) {
    match step
    case Start(b, _) => s.writer.Nobody? && b !in s.casting && b !in s.finished
    case Offer(b, c) => b in s.casting && c in s.casting[b].left
    case Finish(b) => b in s.casting && s.casting[b].left == {}
    case Lock(w) =>
      && s.writer.Nobody? && s.casting == map[]
      && (match w case Nobody => false case Joining(c) => c !in s.queue case Leaving(c) => c in s.clients)
    case Commit => !s.writer.Nobody?
    case Take(c) => c in s.queue && s.queue[c] != []
  }

  /** A client never queued for is treated as having an empty queue; only joined clients are ever offered to. */
  function QueueOf(s: State, c: Client): seq<Event> {
    if c in s.queue then s.queue[c] else []
  }

  function Apply(s: State, step: Step): State {
    match step
    case Start(b, e) => s.(casting := s.casting[b := Loop(e, s.clients)])
    case Offer(b, c) =>
      if b !in s.casting then s else
      var loop := s.casting[b];
      s.(casting := s.casting[b := loop.(left := loop.left - {c})],
         queue := s.queue[c := Push(QueueOf(s, c), loop.event)])
    case Finish(b) => s.(casting := s.casting - {b}, finished := s.finished + {b})
    case Lock(w) => s.(writer := w)
    case Commit =>
      (match s.writer
       case Nobody => s
       case Joining(c) => s.(clients := s.clients + {c}, queue := s.queue[c := []], writer := Nobody)
       case Leaving(c) => s.(clients := s.clients - {c}, writer := Nobody))
    case Take(c) =>
      if QueueOf(s, c) == [] then s else s.(queue := s.queue[c := s.queue[c][1..]])
  }

  function After(run: seq<Step>): State {
    if run == [] then EMPTY else Apply(After(Front(run)), Last(run))
  }

  ghost predicate Legal(run: seq<Step>) {
    run != [] ==> Legal(Front(run)) && Enabled(After(Front(run)), Last(run))
  }

  lemma RunGrows(run: seq<Step>, step: Step)
    ensures After(run + [step]) == Apply(After(run), step)
    ensures Legal(run + [step]) <==> Legal(run) && Enabled(After(run), step)
  {
    assert Front(run + [step]) == run && Last(run + [step]) == step;
  }

  // ---------- What a run contains ----------

  /** The event an `Offer` step carries, in the state where it is taken. */
  function Carried(s: State, step: Step): seq<Event> {
    if step.Offer? && step.b in s.casting then [s.casting[step.b].event] else []
  }

  /** The events that broadcast `b` has offered to client `c`. */
  function Sent(run: seq<Step>, b: Cast, c: Client): seq<Event> {
    if run == [] then [] else
    Sent(Front(run), b, c) +
    (if Last(run) == Offer(b, c) then Carried(After(Front(run)), Last(run)) else [])
  }

  /** The events offered to client `c` by anyone, in order. */
  function Offered(run: seq<Step>, c: Client): seq<Event> {
    if run == [] then [] else
    Offered(Front(run), c) +
    (if Last(run).Offer? && Last(run).to == c then Carried(After(Front(run)), Last(run)) else [])
  }

  /** The events the writer of client `c` has received, in order. */
  function Taken(run: seq<Step>, c: Client): seq<Event> {
    if run == [] then [] else
    Taken(Front(run), c) +
    (if Last(run) == Take(c) && QueueOf(After(Front(run)), c) != []
     then [QueueOf(After(Front(run)), c)[0]] else [])
  }

  /** How many offers to client `c` found its queue full. */
  function Dropped(run: seq<Step>, c: Client): nat {
    if run == [] then 0 else
    Dropped(Front(run), c) +
    (if Last(run).Offer? && Last(run).to == c && |QueueOf(After(Front(run)), c)| == CAPACITY then 1 else 0)
  }

  // ---------- Fan-out ----------

  /** The lock discipline: nobody changes the client set while a broadcast is under way. */
  lemma {:induction false} ReadersKeepWritersOut(run: seq<Step>)
    requires Legal(run)
    ensures After(run).casting != map[] ==> After(run).writer.Nobody?
    ensures After(run).clients <= After(run).queue.Keys
    ensures forall b :: b in After(run).casting ==> After(run).casting[b].left <= After(run).clients
    ensures forall b :: b in After(run).casting ==> b !in After(run).finished
  {
    if run != [] {
      ReadersKeepWritersOut(Front(run));
      var s := After(Front(run));
      match Last(run)
      case Offer(b, c) => assert c in s.casting[b].left;
      case Finish(b) => assert b in s.casting && s.casting != map[];
      case _ =>
    }
  }

  lemma {:induction false} UnstartedIsSilent(run: seq<Step>, b: Cast, c: Client)
    requires Legal(run)
    requires b !in After(run).casting && b !in After(run).finished
    ensures Sent(run, b, c) == []
  {
    if run != [] {
      UnstartedIsSilent(Front(run), b, c);
    }
  }

  /** A broadcast of `e` to the clients `registered`, seen from client `c` after any run. */
  ghost predicate OnCourse(run: seq<Step>, registered: set<Client>, b: Cast, e: Event, c: Client) {
    var s, sent := After(run), Sent(run, b, c);
    if b in s.casting
    then s.casting[b].event == e && s.clients == registered &&
         sent == if c in registered && c !in s.casting[b].left then [e] else []
    else b in s.finished && sent == if c in registered then [e] else []
  }

  lemma StaysOnCourse(run: seq<Step>, registered: set<Client>, b: Cast, e: Event, c: Client)
    requires Legal(run) && run != [] && OnCourse(Front(run), registered, b, e, c)
    ensures OnCourse(run, registered, b, e, c)
  {
    var s := After(Front(run));
    ReadersKeepWritersOut(Front(run));
    if b in s.casting {
      assert s.casting != map[];
    }
    match Last(run)
    case Start(_, _) =>
    case Offer(_, _) =>
    case Finish(_) =>
    case Lock(_) =>
    case Commit =>
    case Take(_) =>
  }

  /** Halfway through: a broadcast has reached exactly the clients its loop has behind it. */
  lemma {:induction false} FanOutSoFar(run: seq<Step>, i: nat, b: Cast, e: Event, c: Client)
    requires Legal(run) && i < |run| && run[i] == Start(b, e)
    ensures OnCourse(run, After(run[..i]).clients, b, e, c)
  {
    if i == |run| - 1 {
      assert run[..i] == Front(run);
      UnstartedIsSilent(Front(run), b, c);
    } else {
      assert Front(run)[i] == run[i] && Front(run)[..i] == run[..i];
      FanOutSoFar(Front(run), i, b, e, c);
      StaysOnCourse(run, After(run[..i]).clients, b, e, c);
    }
  }

  /**
   Fan-out: however broadcasts, joins and leaves overlap, and in whatever order each loop goes
   through the clients, a finished broadcast has offered its event exactly once to each client
   registered when it took the lock, and to nobody else.
   */
  lemma FanOut(run: seq<Step>, i: nat, b: Cast, e: Event)
    requires Legal(run) && i < |run| && run[i] == Start(b, e) && b in After(run).finished
    ensures forall c :: Sent(run, b, c) == if c in After(run[..i]).clients then [e] else []
  {
    ReadersKeepWritersOut(run);
    forall c ensures Sent(run, b, c) == if c in After(run[..i]).clients then [e] else [] {
      FanOutSoFar(run, i, b, e, c);
    }
  }

  // ---------- Queues ----------

  /** `a` is what is left of `b` after crossing some of its elements out. */
  predicate Subsequence<T(==)>(a: seq<T>, b: seq<T>)
    decreases |b|
  {
    if a == [] then true
    else if b == [] then false
    else (Last(a) == Last(b) && Subsequence(Front(a), Front(b))) || Subsequence(a, Front(b))
  }

  lemma SubsequenceGrows<T>(a: seq<T>, b: seq<T>, x: T)
    requires Subsequence(a, b)
    ensures Subsequence(a + [x], b + [x]) && Subsequence(a, b + [x])
  {
    assert Front(a + [x]) == a && Front(b + [x]) == b;
  }

  lemma {:induction false} SubsequenceIsShorter<T>(a: seq<T>, b: seq<T>)
    requires Subsequence(a, b)
    ensures |a| <= |b|
    ensures |a| == |b| ==> a == b
    decreases |b|
  {
    if a != [] {
      if Subsequence(a, Front(b)) {
        SubsequenceIsShorter(a, Front(b));
      } else {
        SubsequenceIsShorter(Front(a), Front(b));
        assert a == Front(a) + [Last(a)] && b == Front(b) + [Last(b)];
      }
    }
  }

  /** A client that is joining has no queue yet. */
  lemma {:induction false} WritersMeetNewClients(run: seq<Step>)
    requires Legal(run)
    ensures After(run).writer.Joining? ==> After(run).writer.c !in After(run).queue && After(run).casting == map[]
    ensures After(run).writer.Leaving? ==> After(run).casting == map[]
  {
    if run != [] {
      WritersMeetNewClients(Front(run));
    }
  }

  /** Only an offer, a receive or its own joining touches a client's queue. */
  lemma QueueAfterStep(s: State, step: Step, c: Client)
    requires Enabled(s, step)
    requires s.writer.Joining? ==> s.writer.c !in s.queue
    ensures var q, q' := QueueOf(s, c), QueueOf(Apply(s, step), c);
            match step
            case Offer(b, to) => q' == if to == c then Push(q, s.casting[b].event) else q
            case Take(from) => from == c ==> q != [] && q' == q[1..]
            case _ => q' == q
    ensures step.Take? && step.from != c ==> QueueOf(Apply(s, step), c) == QueueOf(s, c)
  {
  }

  /** What one step adds to the three accounts of a client. */
  lemma AccountsAfterStep(run: seq<Step>, c: Client)
    requires Legal(run) && run != []
    ensures var s, step := After(Front(run)), Last(run);
            var q, t, o := QueueOf(s, c), Taken(Front(run), c), Offered(Front(run), c);
            var q', t', o' := QueueOf(After(run), c), Taken(run, c), Offered(run, c);
            && (step.Offer? && step.to == c ==>
                  var e := s.casting[step.b].event; q' == Push(q, e) && t' == t && o' == o + [e])
            && (step == Take(c) ==> q != [] && q' == q[1..] && t' == t + [q[0]] && o' == o)
            && (!(step.Offer? && step.to == c) && step != Take(c) ==> q' == q && t' == t && o' == o)
  {
    WritersMeetNewClients(Front(run));
    QueueAfterStep(After(Front(run)), Last(run), c);
  }

  /** Every offer to a client was taken, is queued or was dropped on a queue of 32. */
  lemma {:induction false} QueueAccounting(run: seq<Step>, c: Client)
    requires Legal(run)
    ensures |QueueOf(After(run), c)| <= 32
    ensures |Offered(run, c)| == |Taken(run, c)| + |QueueOf(After(run), c)| + Dropped(run, c)
  {
    if run != [] {
      QueueAccounting(Front(run), c);
      AccountsAfterStep(run, c);
    }
  }

  lemma OrderAfterOffer(t: seq<Event>, q: seq<Event>, o: seq<Event>, e: Event)
    requires Subsequence(t + q, o)
    ensures Subsequence(t + Push(q, e), o + [e])
  {
    SubsequenceGrows(t + q, o, e);
    assert t + (q + [e]) == (t + q) + [e];
  }

  lemma TakeKeepsChannel(t: seq<Event>, q: seq<Event>)
    requires q != []
    ensures (t + [q[0]]) + q[1..] == t + q
  {
  }

  lemma OrderAfterTake(t: seq<Event>, q: seq<Event>, o: seq<Event>)
    requires q != [] && Subsequence(t + q, o)
    ensures Subsequence((t + [q[0]]) + q[1..], o)
  {
    TakeKeepsChannel(t, q);
  }

  /** Events leave in the order they came: those taken, then those queued, are the offers with some crossed out. */
  lemma {:induction false} QueueOrder(run: seq<Step>, c: Client)
    requires Legal(run)
    ensures Subsequence(Taken(run, c) + QueueOf(After(run), c), Offered(run, c))
  {
    if run == [] {
      assert Taken(run, c) + QueueOf(After(run), c) == [];
    } else {
      var f, step := Front(run), Last(run);
      QueueOrder(f, c);
      AccountsAfterStep(run, c);
      var s := After(f);
      var q, t, o := QueueOf(s, c), Taken(f, c), Offered(f, c);
      if step.Offer? && step.to == c {
        OrderAfterOffer(t, q, o, s.casting[step.b].event);
      } else if step == Take(c) {
        OrderAfterTake(t, q, o);
      }
    }
  }

  /** A client whose queue was never found full has lost nothing: all its offers were taken or still wait, in order. */
  lemma NeverFullLosesNothing(run: seq<Step>, c: Client)
    requires Legal(run)
    ensures Dropped(run, c) == 0 <==> Taken(run, c) + QueueOf(After(run), c) == Offered(run, c)
  {
    QueueAccounting(run, c);
    QueueOrder(run, c);
    SubsequenceIsShorter(Taken(run, c) + QueueOf(After(run), c), Offered(run, c));
  }

  // ---------- Which events get through ----------

  /** An event that found room in a client's queue, and the broadcast it came from. */
  datatype Entry = Entry(b: Cast, event: Event)

  /** The offers to client `c` that found room, in order. */
  function Entered(run: seq<Step>, c: Client): seq<Entry> {
    if run == [] then [] else
    var s, step := After(Front(run)), Last(run);
    Entered(Front(run), c) +
    (if step.Offer? && step.to == c && step.b in s.casting && |QueueOf(s, c)| < CAPACITY
     then [Entry(step.b, s.casting[step.b].event)] else [])
  }

  function EventsOf(entries: seq<Entry>): seq<Event> {
    if entries == [] then [] else EventsOf(Front(entries)) + [Last(entries).event]
  }

  /** The events that came from one broadcast. */
  function EventsFrom(entries: seq<Entry>, b: Cast): seq<Event> {
    if entries == [] then [] else
    EventsFrom(Front(entries), b) + (if Last(entries).b == b then [Last(entries).event] else [])
  }

  lemma EntriesGrow(entries: seq<Entry>, x: Entry, b: Cast)
    ensures EventsOf(entries + [x]) == EventsOf(entries) + [x.event]
    ensures EventsFrom(entries + [x], b) == EventsFrom(entries, b) + (if x.b == b then [x.event] else [])
  {
    assert Front(entries + [x]) == entries;
  }

  /** What a client has received and what is still queued are exactly the offers that found room. */
  lemma {:induction false} ChannelHoldsEntries(run: seq<Step>, c: Client)
    requires Legal(run)
    ensures Taken(run, c) + QueueOf(After(run), c) == EventsOf(Entered(run, c))
  {
    if run == [] {
      assert Taken(run, c) + QueueOf(After(run), c) == [];
    } else {
      var f, s, step := Front(run), After(Front(run)), Last(run);
      ChannelHoldsEntries(f, c);
      AccountsAfterStep(run, c);
      assert Entered(f, c) + [] == Entered(f, c);
      if step == Take(c) {
        TakeKeepsChannel(Taken(f, c), QueueOf(s, c));
      } else if step.Offer? && step.to == c && |QueueOf(s, c)| < CAPACITY {
        var e := s.casting[step.b].event;
        EntriesGrow(Entered(f, c), Entry(step.b, e), step.b);
        assert Taken(f, c) + (QueueOf(s, c) + [e]) == (Taken(f, c) + QueueOf(s, c)) + [e];
      }
    }
  }

  predicate OfferAt(run: seq<Step>, j: int, b: Cast, c: Client) {
    0 <= j < |run| && run[j] == Offer(b, c)
  }

  /** The queue of `c` was not full at a step of the run. */
  predicate HadRoom(run: seq<Step>, j: int, c: Client) {
    0 <= j <= |run| && |QueueOf(After(run[..j]), c)| < CAPACITY
  }

  lemma EnteredAfterStep(run: seq<Step>, b: Cast, c: Client)
    requires Legal(run) && run != []
    ensures EventsFrom(Entered(run, c), b) == EventsFrom(Entered(Front(run), c), b) +
              (if Last(run) == Offer(b, c) && |QueueOf(After(Front(run)), c)| < CAPACITY
               then Carried(After(Front(run)), Last(run)) else [])
  {
    var s, step := After(Front(run)), Last(run);
    assert Entered(Front(run), c) + [] == Entered(Front(run), c);
    if step.Offer? && step.to == c && |QueueOf(s, c)| < CAPACITY {
      EntriesGrow(Entered(Front(run), c), Entry(step.b, s.casting[step.b].event), b);
    }
  }

  /** The offer at `j` decides what comes of `sent` in the channel of `c`. */
  predicate Decides(run: seq<Step>, j: int, b: Cast, c: Client, sent: seq<Event>) {
    OfferAt(run, j, b, c) && EventsFrom(Entered(run, c), b) == if HadRoom(run, j, c) then sent else []
  }

  lemma DecisionStays(run: seq<Step>, j: int, b: Cast, c: Client, sent: seq<Event>)
    requires Legal(run) && run != [] && Last(run) != Offer(b, c) && Decides(Front(run), j, b, c, sent)
    ensures Decides(run, j, b, c, sent)
  {
    EnteredAfterStep(run, b, c);
    assert Front(run)[..j] == run[..j];
  }

  /** The only offer of a broadcast to a client decides, by the room it finds, what comes of it. */
  lemma {:induction false} RoomDecides(run: seq<Step>, b: Cast, c: Client)
    requires Legal(run) && |Sent(run, b, c)| <= 1
    ensures Sent(run, b, c) == [] ==> EventsFrom(Entered(run, c), b) == []
    ensures Sent(run, b, c) != [] ==> exists j :: Decides(run, j, b, c, Sent(run, b, c))
  {
    if run != [] {
      RoomDecides(Front(run), b, c);
      if Last(run) == Offer(b, c) {
        LastOfferDecides(run, b, c);
      } else if Sent(run, b, c) == [] {
        EnteredAfterStep(run, b, c);
      } else {
        var j :| Decides(Front(run), j, b, c, Sent(Front(run), b, c));
        DecisionStays(run, j, b, c, Sent(run, b, c));
      }
    }
  }

  lemma LastOfferDecides(run: seq<Step>, b: Cast, c: Client)
    requires Legal(run) && run != [] && Last(run) == Offer(b, c)
    requires EventsFrom(Entered(Front(run), c), b) == Sent(Front(run), b, c) == []
    ensures Sent(run, b, c) != [] && Decides(run, |run| - 1, b, c, Sent(run, b, c))
  {
    EnteredAfterStep(run, b, c);
    assert run[..|run| - 1] == Front(run);
  }

  /**
   All together: of everything a registered client has received or has queued, what comes from a finished
   broadcast is its event, once, when its one offer found room, and nothing when that offer found 32
   queued, whatever was dropped before or since.
   */
  lemma RegisteredClientsGetTheEvent(run: seq<Step>, i: nat, b: Cast, e: Event, c: Client)
    requires Legal(run) && i < |run| && run[i] == Start(b, e) && b in After(run).finished
    requires c in After(run[..i]).clients
    ensures Taken(run, c) + QueueOf(After(run), c) == EventsOf(Entered(run, c))
    ensures exists j :: OfferAt(run, j, b, c) &&
              EventsFrom(Entered(run, c), b) == if |QueueOf(After(run[..j]), c)| < 32 then [e] else []
  {
    ChannelHoldsEntries(run, c);
    FanOut(run, i, b, e);
    assert Sent(run, b, c) == [e];
    RoomDecides(run, b, c);
    var j :| Decides(run, j, b, c, [e]);
  }

  lemma {:induction false} EntriesHaveStarted(run: seq<Step>, c: Client, k: nat)
    requires Legal(run) && k < |Entered(run, c)|
    ensures Entered(run, c)[k].b in After(run).casting || Entered(run, c)[k].b in After(run).finished
  {
    if k < |Entered(Front(run), c)| {
      EntriesHaveStarted(Front(run), c, k);
    }
  }

  lemma {:induction false} FinishedStays(run: seq<Step>, i: nat)
    requires i <= |run|
    ensures After(run[..i]).finished <= After(run).finished
  {
    if i == |run| {
      assert run[..i] == run;
    } else {
      assert Front(run)[..i] == run[..i];
      FinishedStays(Front(run), i);
    }
  }

  /** The entries of a run start with those of its beginning; later ones come from broadcasts not finished then. */
  lemma {:induction false} LaterEntries(run: seq<Step>, i: nat, c: Client)
    requires Legal(run) && i <= |run|
    ensures Entered(run[..i], c) <= Entered(run, c)
    ensures forall k :: |Entered(run[..i], c)| <= k < |Entered(run, c)| ==>
              Entered(run, c)[k].b !in After(run[..i]).finished
  {
    if i == |run| {
      assert run[..i] == run;
    } else {
      assert Front(run)[..i] == run[..i];
      LaterEntries(Front(run), i, c);
      FinishedStays(Front(run), i);
      ReadersKeepWritersOut(Front(run));
    }
  }

  lemma {:induction false} LegalSoFar(run: seq<Step>, i: nat)
    requires Legal(run) && i < |run|
    ensures Legal(run[..i]) && Enabled(After(run[..i]), run[i])
  {
    if i == |run| - 1 {
      assert run[..i] == Front(run);
    } else {
      assert Front(run)[..i] == run[..i] && Front(run)[i] == run[i];
      LegalSoFar(Front(run), i);
    }
  }

  /** A broadcast that has finished when another one starts comes before it in every client's channel. */
  lemma EarlierBroadcastsComeFirst(run: seq<Step>, i: nat, b: Cast, b2: Cast, e2: Event, c: Client, k: nat, k2: nat)
    requires Legal(run) && i < |run| && run[i] == Start(b2, e2) && b in After(run[..i]).finished
    requires k < |Entered(run, c)| && Entered(run, c)[k].b == b
    requires k2 < |Entered(run, c)| && Entered(run, c)[k2].b == b2
    ensures k < k2
  {
    LegalSoFar(run, i);
    LaterEntries(run, i, c);
    if k2 < |Entered(run[..i], c)| {
      EntriesHaveStarted(run[..i], c, k2);
    }
  }

  // ---------- Nobody waits ----------

  /**
   Whoever holds the lock can go on: a broadcast under way has another client to offer to, whatever that
   client's queue looks like, or can finish; a join or leave can commit. So no slow client holds anybody up.
   */
  lemma LockHoldersGoOn(run: seq<Step>, b: Cast)
    requires Legal(run)
    ensures b in After(run).casting ==>
              var left := After(run).casting[b].left;
              && (forall c :: c in left ==> Enabled(After(run), Offer(b, c)))
              && (left == {} ==> Enabled(After(run), Finish(b)))
    ensures !After(run).writer.Nobody? ==> Enabled(After(run), Commit)
  {
    ReadersKeepWritersOut(run);
  }

  /** With the lock free or held by readers, any number of broadcasts may join them. */
  lemma BroadcastsMayStart(run: seq<Step>, b: Cast, e: Event)
    requires Legal(run) && b !in After(run).casting && b !in After(run).finished
    ensures After(run).writer.Nobody? ==> Legal(run + [Start(b, e)])
    ensures After(run).writer.Nobody? ==> After(run + [Start(b, e)]).casting[b] == Loop(e, After(run).clients)
  {
    RunGrows(run, Start(b, e));
  }

  lemma TwoOffers(s: State, e: Event, f: Event)
    requires s == State({7}, map[7 := []], map[0 := Loop(e, {7}), 1 := Loop(f, {7})], {}, Nobody)
    ensures Enabled(s, Offer(1, 7)) && Enabled(Apply(s, Offer(1, 7)), Offer(0, 7))
    ensures Apply(Apply(s, Offer(1, 7)), Offer(0, 7)) ==
            State({7}, map[7 := [f, e]], map[0 := Loop(e, {}), 1 := Loop(f, {})], {}, Nobody)
  {
    var r := Apply(s, Offer(1, 7));
    assert {7} - {7} == {};
    assert [] + [f] == [f] && [f] + [e] == [f, e];
    assert r == State({7}, map[7 := [f]], map[0 := Loop(e, {7}), 1 := Loop(f, {})], {}, Nobody);
    assert Apply(r, Offer(0, 7)).casting == map[0 := Loop(e, {}), 1 := Loop(f, {})];
  }

  /** A client has joined, and two broadcasts have started. */
  function TwoStarted(e: Event, f: Event): seq<Step> {
    [Lock(Joining(7))] + [Commit] + [Start(0, e)] + [Start(1, f)]
  }

  lemma TwoHaveStarted(e: Event, f: Event)
    ensures Legal(TwoStarted(e, f))
    ensures After(TwoStarted(e, f)) ==
            State({7}, map[7 := []], map[0 := Loop(e, {7}), 1 := Loop(f, {7})], {}, Nobody)
  {
    var join := [Lock(Joining(7))];
    RunGrows([], Lock(Joining(7)));
    assert [] + join == join;
    RunGrows(join, Commit);
    RunGrows(join + [Commit], Start(0, e));
    RunGrows(join + [Commit] + [Start(0, e)], Start(1, f));
    assert After(join + [Commit]) == State({7}, map[7 := []], map[], {}, Nobody);
  }

  /** Two broadcasts that overlap may reach a client in either order: here the later one comes first. */
  lemma OverlapMayReverse(e: Event, f: Event)
    ensures var run := TwoStarted(e, f) + [Offer(1, 7)] + [Offer(0, 7)] + [Finish(0)] + [Finish(1)];
            Legal(run) && After(run) == State({7}, map[7 := [f, e]], map[], {0, 1}, Nobody)
  {
    var start := TwoStarted(e, f);
    var both := start + [Offer(1, 7)] + [Offer(0, 7)];
    TwoHaveStarted(e, f);
    TwoOffers(After(start), e, f);
    RunGrows(start, Offer(1, 7));
    RunGrows(start + [Offer(1, 7)], Offer(0, 7));
    RunGrows(both, Finish(0));
    RunGrows(both + [Finish(0)], Finish(1));
  }

  // ---------- One undisturbed broadcast ----------

  function Play(s: State, steps: seq<Step>): State {
    if steps == [] then s else Apply(Play(s, Front(steps)), Last(steps))
  }

  function OffersOf(b: Cast, order: seq<Client>): (steps: seq<Step>)
    ensures |steps| == |order|
  {
    if order == [] then [] else OffersOf(b, Front(order)) + [Offer(b, Last(order))]
  }

  /** The state in the middle of an undisturbed broadcast that has offered to the clients of `order`. */
  function Midway(s: State, b: Cast, e: Event, order: seq<Client>): State {
    s.(casting := s.casting[b := Loop(e, set c | c in s.clients && c !in order)],
       queue := map c | c in s.queue :: if c in order then Push(s.queue[c], e) else s.queue[c])
  }

  lemma MidwayOffer(s: State, b: Cast, e: Event, order: seq<Client>, c: Client)
    requires c in s.clients && c !in order && s.clients <= s.queue.Keys
    ensures Apply(Midway(s, b, e, order), Offer(b, c)) == Midway(s, b, e, order + [c])
  {
    var r, r' := Midway(s, b, e, order), Midway(s, b, e, order + [c]);
    assert forall x :: x in order + [c] <==> x in order || x == c;
    assert r.casting[b].left - {c} == r'.casting[b].left;
    assert r.queue[c := Push(QueueOf(r, c), e)] == r'.queue;
    assert r.casting[b := r'.casting[b]] == r'.casting;
  }

  lemma {:induction false} UndisturbedSoFar(s: State, b: Cast, e: Event, order: seq<Client>)
    requires s.clients <= s.queue.Keys
    requires forall i :: 0 <= i < |order| ==> order[i] in s.clients
    requires forall i, j :: 0 <= i < j < |order| ==> order[i] != order[j]
    ensures Play(Apply(s, Start(b, e)), OffersOf(b, order)) == Midway(s, b, e, order)
  {
    if order == [] {
      assert Midway(s, b, e, order).casting[b].left == s.clients;
      assert Midway(s, b, e, order).queue == s.queue;
      assert OffersOf(b, order) == [];
      assert Midway(s, b, e, order) == Apply(s, Start(b, e));
    } else {
      UndisturbedSoFar(s, b, e, Front(order));
      assert order == Front(order) + [Last(order)];
      assert Front(OffersOf(b, order)) == OffersOf(b, Front(order));
      MidwayOffer(s, b, e, Front(order), Last(order));
    }
  }

  lemma MidwayFinish(s: State, b: Cast, e: Event, order: seq<Client>)
    requires b !in s.casting && s.clients <= s.queue.Keys && s.clients == set c | c in order
    ensures Apply(Midway(s, b, e, order), Finish(b)) ==
            s.(finished := s.finished + {b},
               queue := map c | c in s.queue :: if c in s.clients then Push(s.queue[c], e) else s.queue[c])
  {
    assert Midway(s, b, e, order).casting - {b} == s.casting;
  }

  /** Whatever the order of its loop, an undisturbed broadcast ends by pushing once on every registered queue. */
  lemma UndisturbedBroadcast(s: State, b: Cast, e: Event, order: seq<Client>)
    requires b !in s.casting && s.clients <= s.queue.Keys
    requires s.clients == set c | c in order
    requires forall i, j :: 0 <= i < j < |order| ==> order[i] != order[j]
    ensures Play(Apply(s, Start(b, e)), OffersOf(b, order) + [Finish(b)]) ==
            s.(finished := s.finished + {b},
               queue := map c | c in s.queue :: if c in s.clients then Push(s.queue[c], e) else s.queue[c])
  {
    forall i | 0 <= i < |order| ensures order[i] in s.clients {
    }
    UndisturbedSoFar(s, b, e, order);
    assert Front(OffersOf(b, order) + [Finish(b)]) == OffersOf(b, order);
    MidwayFinish(s, b, e, order);
  }
}

/** The hub as the program has it: a set of clients, each with its own channel. */
module HubServer {
  import opened Hub
  import opened Sequences

  class Peer {
    /** Which client of the state machine this is. */
    ghost const id: Client
    /** The contents of the channel, oldest first. */
    var send: seq<Event>

    constructor (ghost id: Client)
      ensures this.id == id && send == []
    {
      this.id := id;
      send := [];
    }

    /** A send that does not wait. */
    method Offer(e: Event)
      modifies this
      ensures send == Push(old(send), e)
      ensures |old(send)| < 32 ==> send == old(send) + [e]
      ensures |old(send)| >= 32 ==> send == old(send)
    {
      if |send| < CAPACITY {
        send := send + [e];
      }
    }

    /** A receive by the goroutine that writes to the connection. */
    method Receive() returns (e: Event)
      requires send != []
      modifies this
      ensures [e] + send == old(send)
    {
      e := send[0];
      send := send[1..];
    }
  }

  /** The channels hold what the state machine's queues hold. */
  ghost predicate SameQueues(s: State, peers: set<Peer>)
    reads peers
  {
    && (forall c :: c in peers ==> c.id in s.queue && s.queue[c.id] == c.send)
    && (forall c, k :: c in peers && k in peers && c.id == k.id ==> c == k)
  }

  /** The ids of the state machine's client set are those of the given peers. */
  ghost predicate SameClients(ids: set<Client>, peers: set<Peer>) {
    && (forall c :: c in peers ==> c.id in ids)
    && (forall k :: k in ids ==> exists c :: c in peers && c.id == k)
  }

  /**
   The one broadcast under way since state `was` is `b`; only its loop and the queues have moved, and of
   those each one the loop has passed since by one push.
   */
  ghost predicate UnderWay(s: State, was: State, b: Cast, e: Event) {
    && s.casting.Keys == {b} && b in was.casting && s.casting[b].event == e
    && s == was.(casting := s.casting, queue := s.queue) && s.queue.Keys == was.queue.Keys
    && s.casting[b].left <= was.casting[b].left
    && (forall k :: k in was.queue ==>
          s.queue[k] == if k in was.casting[b].left && k !in s.casting[b].left then Push(was.queue[k], e)
                        else was.queue[k])
  }

  lemma OneOfferOn(s: State, was: State, b: Cast, e: Event, k: Client)
    requires UnderWay(s, was, b, e) && k in s.casting[b].left && k in s.queue
    ensures var r := Apply(s, Offer(b, k)); UnderWay(r, was, b, e) && r.casting[b].left == s.casting[b].left - {k}
  {
  }

  lemma PushedOnce(s: State, was: State, b: Cast, e: Event, k: Client)
    requires UnderWay(s, was, b, e) && s.casting[b].left == {} && k in was.casting[b].left && k in was.queue
    ensures k in s.queue && s.queue[k] == Push(was.queue[k], e)
  {
  }

  /** Nothing is under way, and the numbers used are all below `next`. */
  ghost predicate Rests(s: State, next: int) {
    && s.casting == map[] && s.writer == Nobody
    && (forall k :: k in s.queue ==> k < next) && (forall b :: b in s.finished ==> b < next)
  }

  /** A whole join, from rest to rest. */
  lemma Joined(s: State, k: Client)
    requires Rests(s, k)
    ensures var w := Apply(s, Lock(Joining(k)));
            var r := Apply(w, Commit);
            && Enabled(s, Lock(Joining(k))) && Enabled(w, Commit) && Rests(r, k + 1)
            && r.clients == s.clients + {k} && r.queue == s.queue[k := []]
  {
  }

  /** A whole leave, from rest to rest. */
  lemma Left(s: State, next: int, k: Client)
    requires Rests(s, next) && k in s.clients
    ensures var w := Apply(s, Lock(Leaving(k)));
            var r := Apply(w, Commit);
            && Enabled(s, Lock(Leaving(k))) && Enabled(w, Commit) && Rests(r, next)
            && r.clients == s.clients - {k} && r.queue == s.queue
  {
  }

  /** Nobody holds the write lock, and the numbers used are all below that of the one broadcast under way. */
  ghost predicate Begun(s: State, b: Cast) {
    && s.writer == Nobody
    && (forall k :: k in s.queue ==> k < b) && (forall x :: x in s.finished ==> x < b)
  }

  /** The start of a broadcast, from rest. */
  lemma Starts(s: State, b: Cast, e: Event)
    requires Rests(s, b)
    ensures var r := Apply(s, Start(b, e));
            && Enabled(s, Start(b, e)) && UnderWay(r, r, b, e) && r.casting[b].left == s.clients == r.clients
            && r.queue == s.queue && Begun(r, b)
  {
  }

  /** The end of a broadcast, back to rest. */
  lemma Finished(s: State, was: State, b: Cast, e: Event)
    requires UnderWay(s, was, b, e) && s.casting[b].left == {} && Begun(was, b)
    ensures var r := Apply(s, Finish(b));
            Enabled(s, Finish(b)) && Rests(r, b + 1) && r.clients == was.clients && r.queue == s.queue
  {
  }

  lemma NobodyLeft(ids: set<Client>, peers: set<Peer>)
    requires SameClients(ids, peers) && peers == {}
    ensures ids == {}
  {
    assert forall k :: k !in ids;
  }

  lemma OneMoreOffer(run: seq<Step>, b: Cast, order: seq<Client>, c: Client)
    ensures run + OffersOf(b, order + [c]) == (run + OffersOf(b, order)) + [Offer(b, c)]
  {
    assert Front(order + [c]) == order;
  }

  lemma OneFewer(ids: set<Client>, peers: set<Peer>, c: Peer)
    requires SameClients(ids, peers) && c in peers
    requires forall x, y :: x in peers && y in peers && x.id == y.id ==> x == y
    ensures SameClients(ids - {c.id}, peers - {c})
  {
    forall k | k in ids - {c.id} ensures exists x :: x in peers - {c} && x.id == k {
      var x :| x in peers && x.id == k;
      assert x in peers - {c};
    }
  }

  class Server {
    var clients: set<Peer>
    /**
     Every peer there has been, the steps taken so far and the state they lead to, and a number above all
     ids and casts used in them.
     */
    ghost var known: set<Peer>
    ghost var run: seq<Step>
    ghost var state: State
    ghost var next: int

    /** At rest, the hub is what the state machine has come to after the run. */
    ghost predicate Valid()
      reads this, known
    {
      && Follows() && clients <= known
      && Rests(state, next)
      && SameQueues(state, known)
      && SameClients(state.clients, clients)
    }

    ghost predicate Follows()
      reads this`run, this`state
    {
      Legal(run) && state == After(run)
    }

    constructor ()
      ensures Valid() && clients == {} && run == []
    {
      clients, known, run, state, next := {}, {}, [], EMPTY, 0;
    }

    /** One turn of the loop of `Broadcast`. */
    method OfferTo(c: Peer, e: Event, ghost b: Cast, ghost was: State)
      requires Follows() && SameQueues(state, known) && c in known
      requires UnderWay(state, was, b, e) && c.id in state.casting[b].left
      modifies this`run, this`state, c
      ensures Follows() && SameQueues(state, known)
      ensures UnderWay(state, was, b, e)
      ensures state.casting[b].left == old(state.casting[b].left) - {c.id}
      ensures run == old(run) + [Offer(b, c.id)]
    {
      RunGrows(run, Offer(b, c.id));
      OneOfferOn(state, was, b, e, c.id);
      c.Offer(e);
      run, state := run + [Offer(b, c.id)], Apply(state, Offer(b, c.id));
    }

    /** The loop of `Broadcast`: each registered client once, in any order. */
    method Spread(e: Event, ghost b: Cast) returns (ghost order: seq<Client>)
      requires Follows() && clients <= known && SameQueues(state, known)
      requires b in state.casting && UnderWay(state, state, b, e)
      requires SameClients(state.casting[b].left, clients)
      modifies this`run, this`state, clients
      ensures Follows() && SameQueues(state, known)
      ensures UnderWay(state, old(state), b, e) && state.casting[b].left == {}
      ensures run == old(run) + OffersOf(b, order)
      ensures forall c :: c in clients ==> c.send == Push(old(c.send), e)
    {
      ghost var was := state;
      order := [];
      var rest := clients;
      while rest != {}
        invariant rest <= clients && Follows()
        invariant run == old(run) + OffersOf(b, order)
        invariant UnderWay(state, was, b, e)
        invariant SameClients(state.casting[b].left, rest)
        invariant SameQueues(state, known)
        decreases rest
      {
        var c :| c in rest;
        OneFewer(state.casting[b].left, rest, c);
        rest := rest - {c};
        OfferTo(c, e, b, was);
        OneMoreOffer(old(run), b, order, c.id);
        order := order + [c.id];
      }
      NobodyLeft(state.casting[b].left, rest);
      forall c | c in clients ensures c.send == Push(old(c.send), e) {
        PushedOnce(state, was, b, e, c.id);
      }
    }

    /** Takes the read lock. */
    ghost method Begin(e: Event, b: Cast)
      requires Valid() && b == next
      modifies this`run, this`state
      ensures Follows() && SameQueues(state, known)
      ensures UnderWay(state, state, b, e) && Begun(state, b)
      ensures state.casting[b].left == state.clients && SameClients(state.clients, clients)
      ensures run == old(run) + [Start(b, e)]
    {
      Starts(state, b, e);
      RunGrows(run, Start(b, e));
      run, state := run + [Start(b, e)], Apply(state, Start(b, e));
    }

    /** Lets go of it, when the loop is over. */
    ghost method End(e: Event, b: Cast, was: State)
      requires Follows() && SameQueues(state, known) && clients <= known
      requires UnderWay(state, was, b, e) && Begun(was, b) && state.casting[b].left == {}
      requires SameClients(was.clients, clients)
      modifies this`run, this`state, this`next
      ensures Valid() && run == old(run) + [Finish(b)]
    {
      Finished(state, was, b, e);
      RunGrows(run, Finish(b));
      run, state, next := run + [Finish(b)], Apply(state, Finish(b)), b + 1;
    }

    /**
     Every turn of the loop is one offer of the state machine, so the method is one of its runs: a
     start, an offer to each registered client in the order of the loop, and a finish.
     */
    method Broadcast(kind: string, payload: string, now: int) returns (ghost order: seq<Client>)
      requires Valid()
      modifies this`run, this`state, this`next, clients
      ensures Valid()
      ensures var e, b := Event(kind, payload, now), old(next);
              && run == old(run) + [Start(b, e)] + OffersOf(b, order) + [Finish(b)]
              && (forall c :: c in clients ==>
                    c.send == if |old(c.send)| < 32 then old(c.send) + [e] else old(c.send))
    {
      var e := Event(kind, payload, now);
      ghost var b := next;
      Begin(e, b);
      ghost var was := state;
      order := Spread(e, b);
      End(e, b, was);
    }

    /** The start of `ServeWS`: under the write lock, a client with an empty channel is added. */
    method Join() returns (c: Peer)
      requires Valid()
      modifies this
      ensures Valid() && fresh(c) && c.send == [] && clients == old(clients) + {c} && known == old(known) + {c}
      ensures run == old(run) + [Lock(Joining(c.id)), Commit]
    {
      ghost var k := next;
      Joined(state, k);
      RunGrows(run, Lock(Joining(k)));
      RunGrows(run + [Lock(Joining(k))], Commit);
      c := new Peer(k);
      clients := clients + {c};
      known := known + {c};
      state := Apply(Apply(state, Lock(Joining(k))), Commit);
      run := run + [Lock(Joining(k)), Commit];
      next := k + 1;
      assert run == (old(run) + [Lock(Joining(k))]) + [Commit];
    }

    /** The end of `ServeWS`: under the write lock, the client is taken out; its channel stays as it is. */
    method Leave(c: Peer)
      requires Valid() && c in clients
      modifies this
      ensures Valid() && clients == old(clients) - {c} && known == old(known)
      ensures run == old(run) + [Lock(Leaving(c.id)), Commit]
    {
      Left(state, next, c.id);
      RunGrows(run, Lock(Leaving(c.id)));
      RunGrows(run + [Lock(Leaving(c.id))], Commit);
      clients := clients - {c};
      state := Apply(Apply(state, Lock(Leaving(c.id))), Commit);
      run := run + [Lock(Leaving(c.id)), Commit];
      assert run == (old(run) + [Lock(Leaving(c.id))]) + [Commit];
    }

    /** One turn of a client's writer, before or after the client leaves. */
    method Drain(c: Peer) returns (e: Event)
      requires Valid() && c in known && c.send != []
      modifies this`run, this`state, c
      ensures Valid() && [e] + c.send == old(c.send)
      ensures run == old(run) + [Take(c.id)]
    {
      RunGrows(run, Take(c.id));
      e := c.Receive();
      run, state := run + [Take(c.id)], Apply(state, Take(c.id));
    }
  }
}
