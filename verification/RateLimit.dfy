/**
 The per-address rate limiter of internal/ratelimit/ratelimit.go.

 The class at the end follows the code: a map from address to a mutable visitor, one method for
 `Allow` and one for the sweep that discards idle visitors. Everything before it is the
 specification: what a limiter answers is a function of the calls the address itself has made,
 and that function never admits more than a fixed number of calls in any stretch of time.

 Clock reads are integers. `Allow` reads the clock twice, once for `time.Since` and once for the
 new `lastSeen`, so a call carries both reads.
 */
module RateLimit {
  import opened Quotients
  import opened Sequences

  datatype Config = Config(limit: int, window: int)

  /** The value of a visitor record. */
  datatype Visit = Visit(count: int, lastSeen: int)

  type Table = map<string, Visit>

  /** The two clock reads of one call of `Allow`. */
  datatype Call = Call(checked: int, stamped: int)

  /** What happens to a limiter. A sweep reads the clock once for each visitor it looks at. */
  datatype Event =
    | Request(ip: string, call: Call)
    | Sweep(clock: map<string, int>, begun: int, done: int)

  // ---------- One step of the limiter ----------

  predicate Stale(v: Visit, at: int, window: int) {
    at - v.lastSeen > window
  }

  function AfterCall(t: Table, ip: string, c: Call, window: int): Table {
    if ip !in t || Stale(t[ip], c.checked, window)
    then t[ip := Visit(1, c.stamped)]
    else t[ip := Visit(t[ip].count + 1, c.stamped)]
  }

  predicate Answer(t: Table, ip: string, c: Call, cfg: Config) {
    ip !in t || Stale(t[ip], c.checked, cfg.window) || t[ip].count + 1 <= cfg.limit
  }

  function AfterSweep(t: Table, clock: map<string, int>, window: int): Table {
    map ip | ip in t && !(ip in clock && Stale(t[ip], clock[ip], window)) :: t[ip]
  }

  // ---------- Runs ----------

  function TableAfter(h: seq<Event>, cfg: Config): Table {
    if h == [] then map[] else
    match Last(h)
    case Request(ip, c) => AfterCall(TableAfter(Front(h), cfg), ip, c, cfg.window)
    case Sweep(clock, _, _) => AfterSweep(TableAfter(Front(h), cfg), clock, cfg.window)
  }

  function Begun(e: Event): int {
    match e
    case Request(_, c) => c.checked
    case Sweep(_, begun, _) => begun
  }

  function Done(e: Event): int {
    match e
    case Request(_, c) => c.stamped
    case Sweep(_, _, done) => done
  }

  ghost predicate Sensible(e: Event) {
    && Begun(e) <= Done(e)
    && (e.Sweep? ==> forall ip :: ip in e.clock ==> e.begun <= e.clock[ip] <= e.done)
  }

  /** The mutex makes events follow one another, and the clock never goes back. */
  ghost predicate Timed(h: seq<Event>) {
    && (forall i :: 0 <= i < |h| ==> Sensible(h[i]))
    && (forall i, j :: 0 <= i < j < |h| ==> Done(h[i]) <= Begun(h[j]))
  }

  function OwnCalls(h: seq<Event>, ip: string): seq<Call> {
    if h == [] then [] else
    var own := OwnCalls(Front(h), ip);
    if Last(h).Request? && Last(h).ip == ip then own + [Last(h).call] else own
  }

  /** The answers given, in order, each with the address it was given to. */
  function Answers(h: seq<Event>, cfg: Config): seq<(string, bool)> {
    if h == [] then [] else
    var before := Answers(Front(h), cfg);
    match Last(h)
    case Request(ip, c) => before + [(ip, Answer(TableAfter(Front(h), cfg), ip, c, cfg))]
    case Sweep(_, _, _) => before
  }

  function AnswersTo(h: seq<Event>, ip: string, cfg: Config): seq<bool> {
    if h == [] then [] else
    var before := AnswersTo(Front(h), ip, cfg);
    if Last(h).Request? && Last(h).ip == ip
    then before + [Answer(TableAfter(Front(h), cfg), ip, Last(h).call, cfg)]
    else before
  }

  function Unswept(h: seq<Event>): seq<Event> {
    if h == [] then [] else
    if Last(h).Sweep? then Unswept(Front(h)) else Unswept(Front(h)) + [Last(h)]
  }

  // ---------- What the answers mean: bursts ----------

  /** The last call opens a burst: it is the first one, or it came more than a window after its predecessor. */
  predicate OpensBurst(calls: seq<Call>, window: int)
    requires calls != []
  {
    |calls| == 1 || Last(calls).checked - calls[|calls| - 2].stamped > window
  }

  /** The place of the last call within its burst, counted from one. */
  function Place(calls: seq<Call>, window: int): (k: nat)
    requires calls != []
    ensures 1 <= k <= |calls|
  {
    if OpensBurst(calls, window) then 1 else Place(Front(calls), window) + 1
  }

  predicate Admitted(calls: seq<Call>, cfg: Config)
    requires calls != []
  {
    Place(calls, cfg.window) == 1 || Place(calls, cfg.window) <= cfg.limit
  }

  /** The calls from `j` on are one burst: the first of them opens it, and no later one comes late. */
  ghost predicate IsBurst(calls: seq<Call>, j: int, window: int) {
    && 0 <= j < |calls|
    && (j > 0 ==> calls[j].checked - calls[j - 1].stamped > window)
    && (forall i :: j < i < |calls| ==> calls[i].checked - calls[i - 1].stamped <= window)
  }

  /** In a burst that began at call `j`, the last call is let through when it is the first or within the limit. */
  lemma {:induction false} PlaceInBurst(calls: seq<Call>, j: int, cfg: Config)
    requires IsBurst(calls, j, cfg.window)
    ensures Place(calls, cfg.window) == |calls| - j
    ensures Admitted(calls, cfg) <==> |calls| - j == 1 || |calls| - j <= cfg.limit
  {
    if j < |calls| - 1 {
      assert calls[|calls| - 1].checked - calls[|calls| - 2].stamped <= cfg.window;
      PlaceInBurst(Front(calls), j, cfg);
    }
  }

  function Verdicts(calls: seq<Call>, cfg: Config): seq<bool> {
    if calls == [] then [] else Verdicts(Front(calls), cfg) + [Admitted(calls, cfg)]
  }

  lemma TimedFront(h: seq<Event>)
    requires Timed(h) && h != []
    ensures Timed(Front(h))
  {
    assert forall i :: 0 <= i < |Front(h)| ==> Front(h)[i] == h[i];
  }

  /** The stored record is the last burst of the address, or is absent because that burst is over. */
  lemma {:induction false} RecordIsLastBurst(h: seq<Event>, ip: string, cfg: Config)
    requires Timed(h)
    ensures var own, t := OwnCalls(h, ip), TableAfter(h, cfg);
            if own == [] then ip !in t
            else if ip in t then t[ip] == Visit(Place(own, cfg.window), Last(own).stamped)
            else Done(Last(h)) - Last(own).stamped > cfg.window
  {
    if h != [] {
      TimedFront(h);
      RecordIsLastBurst(Front(h), ip, cfg);
      var own := OwnCalls(Front(h), ip);
      if |h| > 1 {
        assert Done(h[|h| - 2]) <= Begun(h[|h| - 1]);
      }
      if Last(h).Request? && Last(h).ip == ip && own != [] {
        assert Front(own + [Last(h).call]) == own;
      }
    }
  }

  /** Each answer is decided by the calls the address itself has made. */
  lemma {:induction false} AnswerIsAdmitted(h: seq<Event>, ip: string, c: Call, cfg: Config)
    requires Timed(h + [Request(ip, c)])
    ensures Answer(TableAfter(h, cfg), ip, c, cfg) == Admitted(OwnCalls(h, ip) + [c], cfg)
  {
    var g := h + [Request(ip, c)];
    assert Front(g) == h;
    TimedFront(g);
    RecordIsLastBurst(h, ip, cfg);
    var own := OwnCalls(h, ip);
    assert Front(own + [c]) == own;
    if h != [] {
      assert Done(g[|h| - 1]) <= Begun(g[|h|]);
    }
  }

  /** What one more call does to a run. */
  lemma OneMoreCall(h: seq<Event>, ip: string, c: Call, cfg: Config)
    requires Timed(h) && c.checked <= c.stamped && (h != [] ==> Done(Last(h)) <= c.checked)
    ensures var g := h + [Request(ip, c)];
            Timed(g) && TableAfter(g, cfg) == AfterCall(TableAfter(h, cfg), ip, c, cfg.window)
    ensures Answer(TableAfter(h, cfg), ip, c, cfg) == Admitted(OwnCalls(h, ip) + [c], cfg)
  {
    var g := h + [Request(ip, c)];
    TimedExtend(h, Request(ip, c));
    AnswerIsAdmitted(h, ip, c, cfg);
    assert Front(g) == h && Last(g) == Request(ip, c);
  }

  lemma OneMoreSweep(h: seq<Event>, e: Event, cfg: Config)
    requires Timed(h) && e.Sweep? && Sensible(e) && (h != [] ==> Done(Last(h)) <= e.begun)
    ensures Timed(h + [e]) && TableAfter(h + [e], cfg) == AfterSweep(TableAfter(h, cfg), e.clock, cfg.window)
  {
    TimedExtend(h, e);
    assert Front(h + [e]) == h && Last(h + [e]) == e;
  }

  lemma TimedExtend(h: seq<Event>, e: Event)
    requires Timed(h) && Sensible(e) && (h != [] ==> Done(Last(h)) <= Begun(e))
    ensures Timed(h + [e])
  {
    assert forall i :: 0 <= i < |h| - 1 ==> Done(h[i]) <= Begun(h[|h| - 1]);
  }

  /** Refinement: what an address is told is a function of its own calls, whatever others do and whenever sweeps run. */
  lemma {:induction false} LimiterRefinesBursts(h: seq<Event>, ip: string, cfg: Config)
    requires Timed(h)
    ensures AnswersTo(h, ip, cfg) == Verdicts(OwnCalls(h, ip), cfg)
  {
    if h != [] {
      TimedFront(h);
      LimiterRefinesBursts(Front(h), ip, cfg);
      if Last(h).Request? && Last(h).ip == ip {
        assert h == Front(h) + [Request(ip, Last(h).call)];
        AnswerIsAdmitted(Front(h), ip, Last(h).call, cfg);
        assert Front(OwnCalls(h, ip)) == OwnCalls(Front(h), ip);
      }
    }
  }

  /** Addresses do not interfere. */
  lemma OtherAddressesDoNotMatter(h: seq<Event>, g: seq<Event>, ip: string, cfg: Config)
    requires Timed(h) && Timed(g)
    requires OwnCalls(h, ip) == OwnCalls(g, ip)
    ensures AnswersTo(h, ip, cfg) == AnswersTo(g, ip, cfg)
  {
    LimiterRefinesBursts(h, ip, cfg);
    LimiterRefinesBursts(g, ip, cfg);
  }

  // ---------- Sweeps are invisible ----------

  lemma {:induction false} UnsweptTimed(h: seq<Event>)
    requires Timed(h)
    ensures Timed(Unswept(h))
    ensures h != [] && Unswept(h) != [] ==> Done(Last(Unswept(h))) <= Done(Last(h))
    ensures forall e :: e in Unswept(h) ==> e in h
  {
    if h != [] {
      TimedFront(h);
      UnsweptTimed(Front(h));
      var u := Unswept(Front(h));
      forall e | e in u ensures Done(e) <= Begun(Last(h)) {
        var i :| 0 <= i < |Front(h)| && Front(h)[i] == e;
        assert h[i] == e && Done(h[i]) <= Begun(h[|h| - 1]);
      }
      assert forall i :: 0 <= i < |u| ==> u[i] in u;
    }
  }

  lemma {:induction false} UnsweptOwnCalls(h: seq<Event>, ip: string)
    ensures OwnCalls(Unswept(h), ip) == OwnCalls(h, ip)
  {
    if h != [] {
      UnsweptOwnCalls(Front(h), ip);
      if Last(h).Request? {
        assert Front(Unswept(h)) == Unswept(Front(h));
      }
    }
  }

  /** A limiter that never discards a visitor gives the same answers in the same order. */
  lemma {:induction false} SweepsAreInvisible(h: seq<Event>, cfg: Config)
    requires Timed(h)
    ensures Answers(h, cfg) == Answers(Unswept(h), cfg)
  {
    if h != [] {
      TimedFront(h);
      SweepsAreInvisible(Front(h), cfg);
      if Last(h).Request? {
        var u, ip, c := Unswept(Front(h)), Last(h).ip, Last(h).call;
        UnsweptTimed(h);
        assert Front(Unswept(h)) == u;
        assert h == Front(h) + [Request(ip, c)];
        AnswerIsAdmitted(Front(h), ip, c, cfg);
        AnswerIsAdmitted(u, ip, c, cfg);
        UnsweptOwnCalls(Front(h), ip);
      }
    }
  }

  // ---------- The sliding-window bound ----------

  function Burst(cfg: Config): (m: int)
    ensures m >= 1 && m >= cfg.limit
  {
    if cfg.limit < 1 then 1 else cfg.limit
  }

  /** How many requests of one address, stamped from `lo` to `hi`, the run let through. */
  function LetThrough(h: seq<Event>, ip: string, lo: int, hi: int, cfg: Config): nat {
    if h == [] then 0 else
    var before := LetThrough(Front(h), ip, lo, hi, cfg);
    match Last(h)
    case Request(who, c) =>
      if who == ip && lo <= c.stamped <= hi && Answer(TableAfter(Front(h), cfg), ip, c, cfg)
      then before + 1 else before
    case Sweep(_, _, _) => before
  }

  function AdmittedWithin(calls: seq<Call>, lo: int, hi: int, cfg: Config): nat {
    if calls == [] then 0 else
    AdmittedWithin(Front(calls), lo, hi, cfg) +
    (if lo <= Last(calls).stamped <= hi && Admitted(calls, cfg) then 1 else 0)
  }

  ghost predicate InOrder(calls: seq<Call>) {
    && (forall i :: 0 <= i < |calls| ==> calls[i].checked <= calls[i].stamped)
    && (forall i, j :: 0 <= i < j < |calls| ==> calls[i].stamped <= calls[j].checked)
  }

  lemma {:induction false} OwnCallsInOrder(h: seq<Event>, ip: string)
    requires Timed(h)
    ensures InOrder(OwnCalls(h, ip))
    ensures forall c :: c in OwnCalls(h, ip) ==> c.stamped <= Done(Last(h))
  {
    if h != [] {
      TimedFront(h);
      OwnCallsInOrder(Front(h), ip);
      if |h| > 1 {
        assert Done(h[|h| - 2]) <= Begun(h[|h| - 1]);
      }
      var own := OwnCalls(Front(h), ip);
      assert forall i :: 0 <= i < |own| ==> own[i] in own;
    }
  }

  lemma {:induction false} LetThroughIsAdmitted(h: seq<Event>, ip: string, lo: int, hi: int, cfg: Config)
    requires Timed(h)
    ensures LetThrough(h, ip, lo, hi, cfg) == AdmittedWithin(OwnCalls(h, ip), lo, hi, cfg)
  {
    if h != [] {
      TimedFront(h);
      LetThroughIsAdmitted(Front(h), ip, lo, hi, cfg);
      if Last(h).Request? && Last(h).ip == ip {
        assert h == Front(h) + [Request(ip, Last(h).call)];
        AnswerIsAdmitted(Front(h), ip, Last(h).call, cfg);
        assert Front(OwnCalls(h, ip)) == OwnCalls(Front(h), ip);
      }
    }
  }

  /** A call that stays in its burst. `x` and `y` are the ages of the two calls, `k` the place of the first. */
  lemma BurstGoesOn(m: int, x: int, y: int, d: int, k: int, a: int)
    requires m >= 1 && 0 <= x <= y && d > 0 && k >= 1
    requires a <= m * (x / d) + (if k <= m then k else m)
    ensures a + (if k + 1 <= m then 1 else 0) <= m * (y / d) + (if k + 1 <= m then k + 1 else m)
  {
    DivMono(x, y, d);
    MulMono(m, x / d, y / d);
  }

  /** A call that opens a burst comes a whole window and a tick later, so the quotient has grown. */
  lemma BurstBegins(m: int, x: int, y: int, d: int, k: int, a: int)
    requires m >= 1 && 0 <= x && d > 0 && x + d <= y
    requires a <= m * (x / d) + (if k <= m then k else m)
    ensures a + 1 <= m * (y / d) + 1
  {
    NextQuotient(x, y, d);
    MulMono(m, x / d + 1, y / d);
    assert m * (x / d + 1) == m * (x / d) + m;
  }

  /** The induction behind the bound: whole windows passed so far, plus the place in the burst now running. */
  lemma {:induction false} BoundByBursts(calls: seq<Call>, lo: int, hi: int, cfg: Config)
    requires InOrder(calls) && calls != [] && cfg.window >= 0 && Last(calls).stamped <= hi
    ensures Last(calls).stamped < lo ==> AdmittedWithin(calls, lo, hi, cfg) == 0
    ensures Last(calls).stamped >= lo ==>
              var k, m := Place(calls, cfg.window), Burst(cfg);
              AdmittedWithin(calls, lo, hi, cfg)
              <= m * ((Last(calls).stamped - lo) / (cfg.window + 1)) + (if k <= m then k else m)
  {
    var s, m, d := Last(calls).stamped, Burst(cfg), cfg.window + 1;
    var rest := Front(calls);
    var before := AdmittedWithin(rest, lo, hi, cfg);
    if s >= lo {
      Fits(s - lo, 0, d);
      MulMono(m, 0, (s - lo) / d);
    }
    if rest != [] {
      var r := Last(rest).stamped;
      assert r == calls[|calls| - 2].stamped && r <= Last(calls).checked <= s;
      assert InOrder(rest);
      BoundByBursts(rest, lo, hi, cfg);
      if r >= lo {
        var k := Place(rest, cfg.window);
        if OpensBurst(calls, cfg.window) {
          BurstBegins(m, r - lo, s - lo, d, k, before);
        } else {
          BurstGoesOn(m, r - lo, s - lo, d, k, before);
        }
      }
    }
  }

  lemma BoundAtEnd(m: int, x: int, length: int, d: int, k: int, a: int)
    requires m >= 1 && 0 <= x <= length && d > 0
    requires a <= m * (x / d) + (if k <= m then k else m)
    ensures a <= m * (length / d + 1)
  {
    DivMono(x, length, d);
    MulMono(m, x / d, length / d);
    assert m * (length / d + 1) == m * (length / d) + m;
  }

  lemma {:induction false} BoundOnCalls(calls: seq<Call>, lo: int, hi: int, length: nat, cfg: Config)
    requires InOrder(calls) && cfg.window >= 0 && hi == lo + length
    ensures AdmittedWithin(calls, lo, hi, cfg) <= Burst(cfg) * (length / (cfg.window + 1) + 1)
  {
    var m, d := Burst(cfg), cfg.window + 1;
    BoundAtEnd(m, 0, length, d, 0, 0);
    if calls != [] {
      assert InOrder(Front(calls));
      var s := Last(calls).stamped;
      if s > hi {
        BoundOnCalls(Front(calls), lo, hi, length, cfg);
      } else {
        BoundByBursts(calls, lo, hi, cfg);
        if s >= lo {
          BoundAtEnd(m, s - lo, length, d, Place(calls, cfg.window), AdmittedWithin(calls, lo, hi, cfg));
        }
      }
    }
  }

  lemma BoundOnRun(h: seq<Event>, ip: string, lo: int, hi: int, length: nat, cfg: Config)
    requires Timed(h) && cfg.window >= 0 && hi == lo + length
    ensures LetThrough(h, ip, lo, hi, cfg) <= Burst(cfg) * (length / (cfg.window + 1) + 1)
  {
    LetThroughIsAdmitted(h, ip, lo, hi, cfg);
    OwnCallsInOrder(h, ip);
    var own := OwnCalls(h, ip);
    BoundOnCalls(own, lo, hi, length, cfg);
  }

  /**
   The bound: in any stretch of `length` ticks of any run, whatever other addresses do and
   whenever sweeps happen, at most one burst for each window that fits, plus one.
   */
  lemma SlidingWindowBound(h: seq<Event>, ip: string, lo: int, length: nat, cfg: Config)
    requires Timed(h) && cfg.window >= 0
    ensures var m := if cfg.limit > 1 then cfg.limit else 1;
            && LetThrough(h, ip, lo, lo + length, cfg) <= m * (length / (cfg.window + 1) + 1)
            && (length <= cfg.window ==> LetThrough(h, ip, lo, lo + length, cfg) <= m)
  {
    BoundOnRun(h, ip, lo, lo + length, length, cfg);
    if length <= cfg.window {
      BoundWithinWindow(Burst(cfg), length, cfg.window + 1);
    }
  }

  lemma BoundWithinWindow(m: int, length: nat, d: int)
    requires length < d
    ensures m * (length / d + 1) == m
  {
    assert length / d == 0;
  }

  /** With a negative window every record is stale, and the limiter refuses nobody. */
  lemma NegativeWindowRefusesNobody(h: seq<Event>, ip: string, c: Call, cfg: Config)
    requires Timed(h + [Request(ip, c)]) && cfg.window < 0
    ensures Answer(TableAfter(h, cfg), ip, c, cfg)
  {
    var g := h + [Request(ip, c)];
    assert Front(g) == h;
    TimedFront(g);
    AnswerIsAdmitted(h, ip, c, cfg);
    OwnCallsInOrder(g, ip);
    var own := OwnCalls(h, ip) + [c];
    assert own == OwnCalls(g, ip);
    if |own| > 1 {
      assert own[|own| - 2].stamped <= own[|own| - 1].checked;
    }
  }

  // ---------- The bound is reached ----------

  /** `n` steps of `d` after `from`. */
  function Steps(from: int, n: nat, d: int): int {
    if n == 0 then from else Steps(from, n - 1, d) + d
  }

  lemma {:induction false} StepsAre(from: int, n: nat, d: int)
    ensures Steps(from, n, d) == from + n * d
  {
    if n > 0 {
      StepsAre(from, n - 1, d);
      assert n * d == (n - 1) * d + d;
    }
  }

  /** The place of one more call, by the gap that precedes it. */
  lemma NextPlace(own: seq<Call>, at: int, window: int)
    ensures Place(own + [Call(at, at)], window) ==
            if own == [] || at - Last(own).stamped > window then 1 else Place(own, window) + 1
  {
    assert Front(own + [Call(at, at)]) == own;
  }

  /** One more call at tick `at`, put at place `k` of its burst, is let through. */
  lemma HammerOnce(h: seq<Event>, ip: string, at: int, lo: int, hi: int, k: nat, cfg: Config)
    requires Timed(h) && (h != [] ==> Done(Last(h)) <= at) && lo <= at <= hi && 1 <= k <= Burst(cfg)
    requires var own := OwnCalls(h, ip);
             if own == [] || at - Last(own).stamped > cfg.window then k == 1 else Place(own, cfg.window) == k - 1
    ensures var g := h + [Request(ip, Call(at, at))];
            && Timed(g) && Done(Last(g)) == at
            && OwnCalls(g, ip) != [] && Last(OwnCalls(g, ip)).stamped == at && Place(OwnCalls(g, ip), cfg.window) == k
            && LetThrough(g, ip, lo, hi, cfg) == LetThrough(h, ip, lo, hi, cfg) + 1
  {
    var g := h + [Request(ip, Call(at, at))];
    TimedExtend(h, Request(ip, Call(at, at)));
    assert Front(g) == h;
    NextPlace(OwnCalls(h, ip), at, cfg.window);
    AnswerIsAdmitted(h, ip, Call(at, at), cfg);
  }

  /** Bursts a window and a tick apart, `n` full ones and then `k` calls of the next, are all let through. */
  lemma {:induction false} Hammer(ip: string, lo: int, hi: int, n: nat, k: nat, cfg: Config) returns (h: seq<Event>)
    requires cfg.window >= 0 && 1 <= k <= Burst(cfg) && lo <= Steps(lo, n, cfg.window + 1) <= hi
    ensures Timed(h) && h != [] && Done(Last(h)) == Steps(lo, n, cfg.window + 1)
    ensures OwnCalls(h, ip) != [] && Last(OwnCalls(h, ip)).stamped == Steps(lo, n, cfg.window + 1)
    ensures Place(OwnCalls(h, ip), cfg.window) == k
    ensures LetThrough(h, ip, lo, hi, cfg) == Steps(0, n, Burst(cfg)) + k
    decreases n, k
  {
    var at := Steps(lo, n, cfg.window + 1);
    h := [];
    if k > 1 {
      h := Hammer(ip, lo, hi, n, k - 1, cfg);
    } else if n > 0 {
      StepsAre(lo, n - 1, cfg.window + 1);
      MulMono(cfg.window + 1, 0, n - 1);
      h := Hammer(ip, lo, hi, n - 1, Burst(cfg), cfg);
    }
    HammerOnce(h, ip, at, lo, hi, k, cfg);
    h := h + [Request(ip, Call(at, at))];
  }

  /** No smaller bound would do: an address that calls at the right ticks is let through exactly so often. */
  lemma SlidingWindowBoundIsReached(ip: string, lo: int, length: nat, cfg: Config)
    requires cfg.window >= 0
    ensures var m := if cfg.limit > 1 then cfg.limit else 1;
            exists h :: Timed(h) && LetThrough(h, ip, lo, lo + length, cfg) == m * (length / (cfg.window + 1) + 1)
  {
    var d := cfg.window + 1;
    Fits(length, 0, d);
    var n := length / d;
    Fits(length, n, d);
    MulMono(d, 0, n);
    StepsAre(lo, n, d);
    StepsAre(0, n, Burst(cfg));
    var h := Hammer(ip, lo, lo + length, n, Burst(cfg), cfg);
    assert n * Burst(cfg) + Burst(cfg) == Burst(cfg) * (n + 1);
    assert Timed(h) && LetThrough(h, ip, lo, lo + length, cfg) == Burst(cfg) * (length / d + 1);
  }

  // ---------- The limiter itself ----------

  class Visitor {
    var count: int
    var lastSeen: int

    constructor (count: int, lastSeen: int)
      ensures this.count == count && this.lastSeen == lastSeen
    {
      this.count, this.lastSeen := count, lastSeen;
    }
  }

  class Limiter {
    const limit: int
    const window: int
    var visitors: map<string, Visitor>
    /** Everything that has happened to this limiter. */
    ghost var history: seq<Event>

    ghost function View(): Table
      reads this`visitors, visitors.Values
    {
      map ip | ip in visitors :: Visit(visitors[ip].count, visitors[ip].lastSeen)
    }

    ghost predicate Valid()
      reads this, visitors.Values
    {
      && Timed(history)
      && View() == TableAfter(history, Config(limit, window))
      && Unshared()
    }

    /** No visitor record stands under two addresses. */
    ghost predicate Unshared()
      reads this`visitors
    {
      forall a, b :: a in visitors && b in visitors && a != b ==> visitors[a] != visitors[b]
    }

    constructor (limit: int, window: int)
      ensures Valid() && history == [] && this.limit == limit && this.window == window
      ensures visitors == map[]
    {
      this.limit, this.window := limit, window;
      visitors := map[];
      history := [];
    }

    /** Puts a new record under the address; the old one, if any, is left alone. */
    method Open(ip: string, stamped: int)
      requires Unshared()
      modifies this`visitors
      ensures Unshared() && View() == old(View())[ip := Visit(1, stamped)]
      ensures fresh(visitors.Values - old(visitors.Values))
      ensures ip in visitors && fresh(visitors[ip]) && visitors == old(visitors)[ip := visitors[ip]]
      ensures visitors[ip].count == 1 && visitors[ip].lastSeen == stamped
    {
      var v := new Visitor(1, stamped);
      visitors := visitors[ip := v];
      assert forall a :: a in visitors && a != ip ==> visitors[a] == old(visitors)[a];
    }

    /** Counts a call in the record of the address, in place. */
    method Bump(ip: string, stamped: int) returns (count: int)
      requires Unshared() && ip in visitors
      modifies visitors[ip]
      ensures count == old(View())[ip].count + 1
      ensures View() == old(View())[ip := Visit(count, stamped)]
    {
      var v := visitors[ip];
      v.lastSeen := stamped;
      v.count := v.count + 1;
      count := v.count;
    }

    /** The body of `Allow`: the record is replaced when it is missing or stale, and otherwise updated. */
    method Touch(ip: string, checked: int, stamped: int) returns (ok: bool)
      requires Unshared()
      modifies this`visitors, visitors.Values
      ensures Unshared() && fresh(visitors.Values - old(visitors.Values))
      ensures View() == AfterCall(old(View()), ip, Call(checked, stamped), window)
      ensures ok == Answer(old(View()), ip, Call(checked, stamped), Config(limit, window))
      ensures var again := ip in old(visitors) && checked - old(visitors[ip].lastSeen) <= window;
              && (ok <==> !again || old(visitors[ip].count) + 1 <= limit)
              && ip in visitors && visitors[ip].lastSeen == stamped
              && visitors[ip].count == (if again then old(visitors[ip].count) + 1 else 1)
              && visitors.Keys == old(visitors.Keys) + {ip}
      ensures OthersAsBefore(ip)
    {
      if ip !in visitors || checked - visitors[ip].lastSeen > window {
        Open(ip, stamped);
        return true;
      }
      var count := Bump(ip, stamped);
      return count <= limit;
    }

    /** No other address's record has changed. */
    twostate predicate OthersAsBefore(ip: string)
      reads this, visitors.Values
    {
      forall a :: a in old(visitors) && a != ip ==>
        && a in visitors && visitors[a] == old(visitors[a])
        && visitors[a].count == old(visitors[a].count) && visitors[a].lastSeen == old(visitors[a].lastSeen)
    }

    /**
     `Allow`: what the body answers is what the address's own calls call for. A missing or stale record is
     replaced and the call admitted; otherwise the record is counted up in place and compared with the limit.
     */
    method Allow(ip: string, checked: int, stamped: int) returns (ok: bool)
      requires Valid() && checked <= stamped
      requires history != [] ==> Done(Last(history)) <= checked
      modifies this, visitors.Values
      ensures Valid() && fresh(visitors.Values - old(visitors.Values))
      ensures history == old(history) + [Request(ip, Call(checked, stamped))]
      ensures ok == Admitted(OwnCalls(old(history), ip) + [Call(checked, stamped)], Config(limit, window))
      ensures var again := ip in old(visitors) && checked - old(visitors[ip].lastSeen) <= window;
              && (ok <==> !again || old(visitors[ip].count) + 1 <= limit)
              && ip in visitors && visitors[ip].lastSeen == stamped
              && visitors[ip].count == (if again then old(visitors[ip].count) + 1 else 1)
              && visitors.Keys == old(visitors.Keys) + {ip}
      ensures OthersAsBefore(ip)
    {
      OneMoreCall(history, ip, Call(checked, stamped), Config(limit, window));
      history := history + [Request(ip, Call(checked, stamped))];
      ok := Touch(ip, checked, stamped);
    }

    /** The loop of the sweep: each visitor is looked at once, in any order, and dropped when stale. */
    method DropStale(clock: map<string, int>)
      requires visitors.Keys <= clock.Keys
      modifies this`visitors
      ensures visitors == map ip | ip in old(visitors) && clock[ip] - old(visitors[ip].lastSeen) <= window
                          :: old(visitors)[ip]
    {
      ghost var all := visitors;
      var pending := visitors.Keys;
      while pending != {}
        invariant pending <= visitors.Keys <= all.Keys
        invariant forall ip :: ip in visitors ==> visitors[ip] == all[ip]
        invariant forall ip :: ip in all && ip !in pending ==>
                    (ip in visitors <==> clock[ip] - all[ip].lastSeen <= window)
        decreases pending
      {
        var ip :| ip in pending;
        pending := pending - {ip};
        if clock[ip] - visitors[ip].lastSeen > window {
          visitors := visitors - {ip};
        }
      }
    }

    /** One round of the background sweep; `clock` gives the read made at each visitor. */
    method SweepStale(clock: map<string, int>, begun: int, done: int)
      requires Valid() && visitors.Keys <= clock.Keys
      requires Sensible(Sweep(clock, begun, done))
      requires history != [] ==> Done(Last(history)) <= begun
      modifies this
      ensures Valid() && visitors.Values <= old(visitors.Values)
      ensures history == old(history) + [Sweep(clock, begun, done)]
      ensures visitors == map ip | ip in old(visitors) && clock[ip] - old(visitors[ip].lastSeen) <= window
                          :: old(visitors)[ip]
    {
      ghost var was := View();
      OneMoreSweep(history, Sweep(clock, begun, done), Config(limit, window));
      DropStale(clock);
      assert View() == AfterSweep(was, clock, window);
      history := history + [Sweep(clock, begun, done)];
    }

    /** `Middleware`: a forwarded address, when there is one, takes the place of the remote one. */
    method Serve(remote: string, forwarded: string, checked: int, stamped: int) returns (served: bool)
      requires Valid() && checked <= stamped
      requires history != [] ==> Done(Last(history)) <= checked
      modifies this, visitors.Values
      ensures Valid() && fresh(visitors.Values - old(visitors.Values))
      ensures var key := if forwarded != "" then forwarded else remote;
              && history == old(history) + [Request(key, Call(checked, stamped))]
              && served == Admitted(OwnCalls(old(history), key) + [Call(checked, stamped)], Config(limit, window))
              && (served <==> (key !in old(visitors) || checked - old(visitors[key].lastSeen) > window ||
                               old(visitors[key].count) + 1 <= limit))
    {
      var ip := remote;
      if forwarded != "" {
        ip := forwarded;
      }
      served := Allow(ip, checked, stamped);
    }
  }
}
