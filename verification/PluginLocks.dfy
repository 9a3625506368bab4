/**
 * The per-plugin promise mutex of the chain processor. Each stretch of code between two awaits is one
 * event: a request, a release, or the wake-up of a request whose promise a release has resolved.
 */
module PluginLocks {
  import opened Prelude

  type Request = nat

  /**
   * `locked` and `queue` are the stored record. The rest is what the runtime knows: requests whose promise is
   * resolved but which have not run again, requests holding a release function, and both request and grant order.
   */
  datatype Lock = Lock(
    locked: bool,
    queue: seq<Request>,
    woken: seq<Request>,
    holders: set<Request>,
    requested: seq<Request>,
    granted: seq<Request>)

  const FREE_LOCK := Lock(false, [], [], {}, [], [])

  datatype Event = Acquire(r: Request) | Release(r: Request) | Resume(i: nat)

  predicate Enabled(l: Lock, e: Event) {
    match e
    case Acquire(r) => r !in l.requested
    case Release(r) => r in l.holders
    case Resume(i) => i < |l.woken|
  }

  function Grant(l: Lock, r: Request): Lock {
    l.(locked := true, holders := l.holders + {r}, granted := l.granted + [r])
  }

  function Apply(l: Lock, e: Event): Lock
    requires Enabled(l, e)
  {
    match e
    case Acquire(r) =>
      var asked := l.(requested := l.requested + [r]);
      if l.locked then asked.(queue := l.queue + [r]) else Grant(asked, r)
    case Release(r) =>
      var freed := l.(locked := false, holders := l.holders - {r});
      if l.queue == [] then freed else freed.(queue := l.queue[1..], woken := l.woken + [l.queue[0]])
    case Resume(i) =>
      Grant(l.(woken := l.woken[..i] + l.woken[i + 1..]), l.woken[i])
  }

  // ---------------------------------------------------------------- whole tables and whole runs

  type Table = map<string, Lock>

  datatype TableEvent = On(plugin: string, event: Event)

  function LockOf(t: Table, plugin: string): Lock {
    if plugin in t then t[plugin] else FREE_LOCK
  }

  function Step(t: Table, e: TableEvent): Table
    requires Enabled(LockOf(t, e.plugin), e.event)
  {
    t[e.plugin := Apply(LockOf(t, e.plugin), e.event)]
  }

  /** An interleaving: every event is enabled when it happens. */
  predicate Interleaving(t: Table, es: seq<TableEvent>)
    decreases |es|
  {
    es == [] || (Enabled(LockOf(t, es[0].plugin), es[0].event) && Interleaving(Step(t, es[0]), es[1..]))
  }

  function Run(t: Table, es: seq<TableEvent>): Table
    requires Interleaving(t, es)
    decreases |es|
  {
    if es == [] then t else Run(Step(t, es[0]), es[1..])
  }

  /** The scheduling hypothesis: no request for a plugin runs while a woken request for it still waits to run. */
  predicate WokenFirst(t: Table, es: seq<TableEvent>)
    requires Interleaving(t, es)
    decreases |es|
  {
    es != [] ==>
      && (es[0].event.Acquire? ==> LockOf(t, es[0].plugin).woken == [])
      && WokenFirst(Step(t, es[0]), es[1..])
  }

  // ---------------------------------------------------------------- what a run leaves alone, and what it was asked

  /** Plugins do not disturb each other: an event changes the lock of its own plugin only. */
  lemma OtherPluginsUntouched(t: Table, e: TableEvent, plugin: string)
    requires Enabled(LockOf(t, e.plugin), e.event) && plugin != e.plugin
    ensures LockOf(Step(t, e), plugin) == LockOf(t, plugin)
  {
  }

  function OwnEvents(es: seq<TableEvent>, plugin: string): seq<Event> {
    if es == [] then [] else (if es[0].plugin == plugin then [es[0].event] else []) + OwnEvents(es[1..], plugin)
  }

  /** One lock on its own, going through these events. */
  ghost predicate Leads(l: Lock, events: seq<Event>, end: Lock)
    decreases |events|
  {
    if events == [] then l == end else Enabled(l, events[0]) && Leads(Apply(l, events[0]), events[1..], end)
  }

  /** Over any run, a plugin's lock goes through the plugin's own events as if there were no others. */
  lemma {:induction false} PluginsAreIndependent(t: Table, es: seq<TableEvent>, plugin: string)
    requires Interleaving(t, es)
    ensures Leads(LockOf(t, plugin), OwnEvents(es, plugin), LockOf(Run(t, es), plugin))
    decreases |es|
  {
    if es != [] {
      PluginsAreIndependent(Step(t, es[0]), es[1..], plugin);
      if es[0].plugin == plugin {
        assert OwnEvents(es, plugin)[1..] == OwnEvents(es[1..], plugin);
      } else {
        assert OwnEvents(es, plugin) == OwnEvents(es[1..], plugin);
        OtherPluginsUntouched(t, es[0], plugin);
      }
    }
  }

  /** The requests made for a plugin, in order, read off the events alone. */
  function Asked(es: seq<TableEvent>, plugin: string): seq<Request> {
    if es == [] then [] else AskedBy(es[0], plugin) + Asked(es[1..], plugin)
  }

  function AskedBy(e: TableEvent, plugin: string): seq<Request> {
    if e.plugin == plugin && e.event.Acquire? then [e.event.r] else []
  }

  /** The record of requests is what was asked. */
  lemma {:induction false} RequestedIsAsked(t: Table, es: seq<TableEvent>, plugin: string)
    requires Interleaving(t, es)
    ensures LockOf(Run(t, es), plugin).requested == LockOf(t, plugin).requested + Asked(es, plugin)
    decreases |es|
  {
    if es != [] {
      RequestedIsAsked(Step(t, es[0]), es[1..], plugin);
      StepAsks(t, es[0], plugin);
      Associates(LockOf(t, plugin).requested, AskedBy(es[0], plugin), Asked(es[1..], plugin));
    }
  }

  lemma StepAsks(t: Table, e: TableEvent, plugin: string)
    requires Enabled(LockOf(t, e.plugin), e.event)
    ensures LockOf(Step(t, e), plugin).requested == LockOf(t, plugin).requested + AskedBy(e, plugin)
  {
  }

  lemma {:induction false} NothingAsked(es: seq<TableEvent>, plugin: string)
    requires forall i :: 0 <= i < |es| ==> !es[i].event.Acquire?
    ensures Asked(es, plugin) == []
  {
    if es != [] {
      NothingAsked(es[1..], plugin);
    }
  }

  // ---------------------------------------------------------------- nobody is stranded

  /** True in every interleaving: a set flag has a holder behind it, a queue has somebody who will shorten it. */
  ghost predicate Attended(l: Lock) {
    && (l.locked ==> l.holders != {})
    && (l.queue != [] ==> l.holders != {} || l.woken != [])
    && NoDuplicates(l.requested)
    && multiset(l.requested) == multiset(l.granted) + multiset(l.woken) + multiset(l.queue)
    && (forall r :: r in l.holders ==> r in l.granted)
  }

  lemma CutOut<T>(s: seq<T>, i: nat)
    requires i < |s|
    ensures multiset(s) == multiset(s[..i] + s[i + 1..]) + multiset{s[i]}
  {
    assert s == s[..i] + [s[i]] + s[i + 1..];
  }

  lemma AttendedAcquire(l: Lock, r: Request)
    requires Attended(l) && Enabled(l, Acquire(r))
    ensures Attended(Apply(l, Acquire(r)))
  {
  }

  lemma AttendedRelease(l: Lock, r: Request)
    requires Attended(l) && Enabled(l, Release(r))
    ensures Attended(Apply(l, Release(r)))
  {
    if l.queue != [] {
      assert l.queue == [l.queue[0]] + l.queue[1..];
    }
  }

  lemma AttendedResume(l: Lock, i: nat)
    requires Attended(l) && Enabled(l, Resume(i))
    ensures Attended(Apply(l, Resume(i)))
  {
    CutOut(l.woken, i);
  }

  lemma AttendedStep(l: Lock, e: Event)
    requires Attended(l) && Enabled(l, e)
    ensures Attended(Apply(l, e))
  {
    match e
    case Acquire(r) => AttendedAcquire(l, r);
    case Release(r) => AttendedRelease(l, r);
    case Resume(i) => AttendedResume(l, i);
  }

  lemma {:induction false} AttendedRun(t: Table, es: seq<TableEvent>)
    requires Interleaving(t, es) && forall p :: Attended(LockOf(t, p))
    ensures forall p :: Attended(LockOf(Run(t, es), p))
    decreases |es|
  {
    if es != [] {
      AttendedStep(LockOf(t, es[0].plugin), es[0].event);
      forall p ensures Attended(LockOf(Step(t, es[0]), p)) {
        assert p != es[0].plugin ==> LockOf(Step(t, es[0]), p) == LockOf(t, p);
      }
      AttendedRun(Step(t, es[0]), es[1..]);
    }
  }

  /**
   * In every interleaving from the empty table, every request asked for has been granted, or is woken or queued, and
   * a queued one has a holder or a woken request ahead of it.
   */
  lemma NobodyStranded(es: seq<TableEvent>, plugin: string)
    requires Interleaving(map[], es)
    ensures var l := LockOf(Run(map[], es), plugin);
      && multiset(Asked(es, plugin)) == multiset(l.granted) + multiset(l.woken) + multiset(l.queue)
      && (l.queue != [] ==> l.holders != {} || l.woken != [])
  {
    EmptyAttended();
    AttendedRun(map[], es);
    RequestedIsAsked(map[], es, plugin);
    assert [] + Asked(es, plugin) == Asked(es, plugin);
    assert Attended(LockOf(Run(map[], es), plugin));
  }

  lemma EmptyAttended()
    ensures forall p :: Attended(LockOf(map[], p))
  {
    forall p ensures Attended(LockOf(map[], p)) {
      assert multiset(FREE_LOCK.requested) == multiset{};
    }
  }

  /** Of the requests granted, the holders are those that have not released yet. */
  ghost predicate HeldUntilReleased(l: Lock, events: seq<Event>, end: Lock) {
    forall r :: HeldOne(l, events, end, r)
  }

  lemma {:induction false} HoldersLead(l: Lock, events: seq<Event>, end: Lock)
    requires Attended(l) && Leads(l, events, end)
    ensures HeldUntilReleased(l, events, end)
    decreases |events|
  {
    if events != [] {
      AttendedStep(l, events[0]);
      HoldersLead(Apply(l, events[0]), events[1..], end);
      forall r ensures HeldOne(l, events, end, r) {
        HoldersStep(l, events[0], events[1..], end, r);
        assert events == [events[0]] + events[1..];
      }
    }
  }

  ghost predicate HeldOne(l: Lock, events: seq<Event>, end: Lock, r: Request) {
    r in end.holders <==> r in end.granted && (r in l.granted ==> r in l.holders) && Release(r) !in events
  }

  lemma HoldersStep(l: Lock, e: Event, rest: seq<Event>, end: Lock, r: Request)
    requires Attended(l) && Enabled(l, e) && HeldOne(Apply(l, e), rest, end, r)
    ensures HeldOne(l, [e] + rest, end, r)
  {
    assert Release(r) in [e] + rest <==> Release(r) == e || Release(r) in rest;
    match e
    case Acquire(q) => assert q !in multiset(l.requested) && q !in l.granted by {
      assert q in l.granted ==> q in multiset(l.granted);
    }
    case Release(q) => assert q in l.granted;
    case Resume(i) => GrantedOnce(l);
  }

  lemma {:induction false} OwnEventsAre(es: seq<TableEvent>, plugin: string, e: Event)
    ensures e in OwnEvents(es, plugin) <==> On(plugin, e) in es
  {
    if es != [] {
      OwnEventsAre(es[1..], plugin, e);
      assert On(plugin, e) in es <==> On(plugin, e) == es[0] || On(plugin, e) in es[1..];
    }
  }

  /** A grant is not given twice. */
  lemma GrantedOnce(l: Lock)
    requires Attended(l)
    ensures NoDuplicates(l.granted) && forall i :: 0 <= i < |l.woken| ==> l.woken[i] !in l.granted
  {
    forall r ensures multiset(l.granted)[r] + multiset(l.woken)[r] <= 1 {
      CountedOnce(l.requested, r);
    }
    CountsApart(l.granted);
    forall i | 0 <= i < |l.woken| ensures l.woken[i] !in l.granted {
      assert l.woken[i] in multiset(l.woken);
    }
  }

  lemma {:induction false} CountedOnce(s: seq<Request>, r: Request)
    requires NoDuplicates(s)
    ensures multiset(s)[r] <= 1
  {
    if s != [] {
      var n := |s| - 1;
      CountedOnce(s[..n], r);
      assert s == s[..n] + [s[n]];
    }
  }

  lemma CountsApart(s: seq<Request>)
    requires forall r :: multiset(s)[r] <= 1
    ensures NoDuplicates(s)
  {
    forall i, j | 0 <= i < j < |s| ensures s[i] != s[j] {
      assert s == s[..j] + [s[j]] + s[j + 1..];
      assert s[i] == s[..j][i] && s[i] in multiset(s[..j]);
      assert multiset(s)[s[j]] == multiset(s[..j])[s[j]] + 1 + multiset(s[j + 1..])[s[j]];
    }
  }

  /** In every interleaving each request is granted at most once, and holds the lock from then until it releases. */
  lemma HoldsUntilRelease(es: seq<TableEvent>, plugin: string)
    requires Interleaving(map[], es)
    ensures var l := LockOf(Run(map[], es), plugin);
      && NoDuplicates(l.granted)
      && forall r :: r in l.holders <==> r in l.granted && On(plugin, Release(r)) !in es
  {
    EmptyAttended();
    AttendedRun(map[], es);
    assert Attended(LockOf(Run(map[], es), plugin));
    GrantedOnce(LockOf(Run(map[], es), plugin));
    PluginsAreIndependent(map[], es, plugin);
    HoldersLead(FREE_LOCK, OwnEvents(es, plugin), LockOf(Run(map[], es), plugin));
    forall r ensures r in LockOf(Run(map[], es), plugin).holders <==>
      r in LockOf(Run(map[], es), plugin).granted && On(plugin, Release(r)) !in es
    {
      OwnEventsAre(es, plugin, Release(r));
      assert HeldOne(FREE_LOCK, OwnEvents(es, plugin), LockOf(Run(map[], es), plugin), r);
    }
  }

  /** What is left to do for the requests already made: a queued one costs three units, a woken one two, a holder one. */
  function Work(l: Lock): nat {
    3 * |l.queue| + 2 * |l.woken| + |l.holders|
  }

  lemma WorkShrinks(l: Lock, e: Event)
    requires Enabled(l, e) && !e.Acquire?
    ensures Work(Apply(l, e)) < Work(l)
  {
    match e
    case Release(r) => assert |l.holders - {r}| == |l.holders| - 1;
    case Resume(i) => assert |l.holders + {l.woken[i]}| <= |l.holders| + 1;
  }

  predicate OnlyPlugin(es: seq<TableEvent>, plugin: string) {
    forall i :: 0 <= i < |es| ==> es[i].plugin == plugin && !es[i].event.Acquire?
  }

  lemma {:induction false} WorkBoundsRun(t: Table, es: seq<TableEvent>, plugin: string)
    requires Interleaving(t, es) && OnlyPlugin(es, plugin)
    ensures |es| + Work(LockOf(Run(t, es), plugin)) <= Work(LockOf(t, plugin))
    decreases |es|
  {
    if es != [] {
      WorkShrinks(LockOf(t, plugin), es[0].event);
      WorkBoundsRun(Step(t, es[0]), es[1..], plugin);
    }
  }

  /**
   * Once requests stop, releases and wake-ups can only go on for a bounded number of events, and when none is left
   * to happen every request ever made for the plugin has been granted exactly once.
   */
  lemma {:induction false} EveryRequestIsServed(es: seq<TableEvent>, plugin: string, drain: seq<TableEvent>)
    requires Interleaving(map[], es) && Interleaving(Run(map[], es), drain) && OnlyPlugin(drain, plugin)
    ensures |drain| <= Work(LockOf(Run(map[], es), plugin))
    ensures var l := LockOf(Run(Run(map[], es), drain), plugin);
      (forall e: Event :: !e.Acquire? ==> !Enabled(l, e)) ==>
        multiset(l.granted) == multiset(Asked(es, plugin)) && NoDuplicates(Asked(es, plugin))
  {
    WorkBoundsRun(Run(map[], es), drain, plugin);
    EmptyAttended();
    AttendedRun(map[], es);
    AttendedRun(Run(map[], es), drain);
    AskedThenDrained(es, plugin, drain);
    var l := LockOf(Run(Run(map[], es), drain), plugin);
    assert Attended(l);
    if forall e: Event :: !e.Acquire? ==> !Enabled(l, e) {
      NothingLeft(l);
    }
  }

  lemma AskedThenDrained(es: seq<TableEvent>, plugin: string, drain: seq<TableEvent>)
    requires Interleaving(map[], es) && Interleaving(Run(map[], es), drain) && OnlyPlugin(drain, plugin)
    ensures LockOf(Run(Run(map[], es), drain), plugin).requested == Asked(es, plugin)
  {
    RequestedIsAsked(map[], es, plugin);
    RequestedIsAsked(Run(map[], es), drain, plugin);
    NothingAsked(drain, plugin);
    assert [] + Asked(es, plugin) + [] == Asked(es, plugin);
  }

  lemma NothingLeft(l: Lock)
    requires Attended(l) && forall e: Event :: !e.Acquire? ==> !Enabled(l, e)
    ensures multiset(l.granted) == multiset(l.requested)
  {
    assert !Enabled(l, Resume(0));
    assert forall r :: r in l.holders ==> Enabled(l, Release(r));
    assert l.queue == [];
  }

  // ---------------------------------------------------------------- mutual exclusion and request order

  /** Holds as long as woken requests run first. */
  ghost predicate Exclusive(l: Lock) {
    && |l.holders| + |l.woken| <= 1
    && (l.locked <==> l.holders != {})
    && (l.queue != [] ==> l.holders != {} || l.woken != [])
    && l.requested == l.granted + l.woken + l.queue
  }

  lemma ExclusiveRelease(l: Lock, r: Request)
    requires Exclusive(l) && Enabled(l, Release(r))
    ensures Exclusive(Apply(l, Release(r)))
  {
    assert |l.holders - {r}| == |l.holders| - 1;
    assert l.woken == [] && l.holders - {r} == {};
    if l.queue != [] {
      assert l.queue == [l.queue[0]] + l.queue[1..];
    }
  }

  lemma ExclusiveResume(l: Lock, i: nat)
    requires Exclusive(l) && Enabled(l, Resume(i))
    ensures Exclusive(Apply(l, Resume(i)))
  {
    assert l.woken == [l.woken[0]] && |l.holders| == 0;
    assert l.woken[..i] + l.woken[i + 1..] == [];
  }

  lemma ExclusiveStep(l: Lock, e: Event)
    requires Exclusive(l) && Enabled(l, e) && (e.Acquire? ==> l.woken == [])
    ensures Exclusive(Apply(l, e))
  {
    match e
    case Acquire(r) =>
    case Release(r) => ExclusiveRelease(l, r);
    case Resume(i) => ExclusiveResume(l, i);
  }

  lemma {:induction false} ExclusiveRun(t: Table, es: seq<TableEvent>)
    requires Interleaving(t, es) && WokenFirst(t, es) && forall p :: Exclusive(LockOf(t, p))
    ensures forall p :: Exclusive(LockOf(Run(t, es), p))
    decreases |es|
  {
    if es != [] {
      ExclusiveStep(LockOf(t, es[0].plugin), es[0].event);
      forall p ensures Exclusive(LockOf(Step(t, es[0]), p)) {
        assert p != es[0].plugin ==> LockOf(Step(t, es[0]), p) == LockOf(t, p);
      }
      ExclusiveRun(Step(t, es[0]), es[1..]);
    }
  }

  lemma EmptyExclusive()
    ensures forall p :: Exclusive(LockOf(map[], p))
  {
    forall p ensures Exclusive(LockOf(map[], p)) {
      assert FREE_LOCK.requested == FREE_LOCK.granted + FREE_LOCK.woken + FREE_LOCK.queue;
    }
  }

  /** In every run where woken requests run first: at most one holder per plugin, granted in the order they asked. */
  lemma MutualExclusion(es: seq<TableEvent>, plugin: string)
    requires Interleaving(map[], es) && WokenFirst(map[], es)
    ensures |LockOf(Run(map[], es), plugin).holders| <= 1
    ensures LockOf(Run(map[], es), plugin).granted <= Asked(es, plugin)
  {
    EmptyExclusive();
    ExclusiveRun(map[], es);
    RequestedIsAsked(map[], es, plugin);
    assert [] + Asked(es, plugin) == Asked(es, plugin);
    assert Exclusive(LockOf(Run(map[], es), plugin));
  }

  /** At every point of the run, every plugin's lock has been granted in request order. */
  ghost predicate AlwaysInOrder(t: Table, es: seq<TableEvent>)
    requires Interleaving(t, es)
    decreases |es|
  {
    && (forall p :: LockOf(t, p).granted <= LockOf(t, p).requested)
    && (es != [] ==> AlwaysInOrder(Step(t, es[0]), es[1..]))
  }

  /** A request that comes while a woken one has not run yet is granted out of turn at once. */
  lemma BargingJumpsQueue(l: Lock, r: Request)
    requires Exclusive(l) && Enabled(l, Acquire(r)) && l.woken != []
    ensures !(Apply(l, Acquire(r)).granted <= Apply(l, Acquire(r)).requested)
  {
    var after := Apply(l, Acquire(r));
    assert l.woken[0] in l.requested && after.granted[|l.granted|] == r;
    assert after.requested[|l.granted|] == l.woken[0];
  }

  lemma {:induction false} InOrderExactly(t: Table, es: seq<TableEvent>)
    requires Interleaving(t, es) && forall p :: Exclusive(LockOf(t, p))
    ensures AlwaysInOrder(t, es) <==> WokenFirst(t, es)
    decreases |es|
  {
    if es != [] {
      var l, e := LockOf(t, es[0].plugin), es[0].event;
      if e.Acquire? && l.woken != [] {
        BargingJumpsQueue(l, e.r);
        assert LockOf(Step(t, es[0]), es[0].plugin) == Apply(l, e);
      } else {
        ExclusiveStep(l, e);
        forall p ensures Exclusive(LockOf(Step(t, es[0]), p)) {
          assert p != es[0].plugin ==> LockOf(Step(t, es[0]), p) == LockOf(t, p);
        }
        InOrderExactly(Step(t, es[0]), es[1..]);
      }
    }
  }

  /** Every run from the empty table grants in request order throughout iff woken requests run first throughout. */
  lemma OrderNeedsWokenFirst(es: seq<TableEvent>)
    requires Interleaving(map[], es)
    ensures AlwaysInOrder(map[], es) <==> WokenFirst(map[], es)
  {
    EmptyExclusive();
    InOrderExactly(map[], es);
  }

  /** Without the hypothesis it fails: request 2 slips in between the release that wakes request 1 and its wake-up. */
  const BARGING_TRACE: seq<TableEvent> := [
    On("email", Acquire(0)), On("email", Acquire(1)), On("email", Release(0)),
    On("email", Acquire(2)), On("email", Resume(0))]

  lemma BargingBreaksExclusion()
    ensures Interleaving(map[], BARGING_TRACE)
    ensures var l := LockOf(Run(map[], BARGING_TRACE), "email");
      l.holders == {1, 2} && l.requested == [0, 1, 2] && l.granted == [0, 2, 1]
  {
    var es := BARGING_TRACE;
    var t1 := Step(map[], es[0]);
    var t2 := Step(t1, es[1]);
    var t3 := Step(t2, es[2]);
    var t4 := Step(t3, es[3]);
    var t5 := Step(t4, es[4]);
    assert t5["email"] == Lock(true, [], [], {1, 2}, [0, 1, 2], [0, 2, 1]);
    Unroll(t4, es[4..]);
    Unroll(t3, es[3..]);
    Unroll(t2, es[2..]);
    Unroll(t1, es[1..]);
    Unroll(map[], es);
  }

  lemma Unroll(t: Table, es: seq<TableEvent>)
    requires es != [] && Enabled(LockOf(t, es[0].plugin), es[0].event) && Interleaving(Step(t, es[0]), es[1..])
    ensures Interleaving(t, es) && Run(t, es) == Run(Step(t, es[0]), es[1..])
  {
  }

  /** And exactly then: a new request can end in two holders after one wake-up iff a woken request was waiting to run. */
  lemma BargingExactly(l: Lock, r: Request)
    requires Exclusive(l) && Enabled(l, Acquire(r)) && (forall h :: h in l.holders + Elements(l.woken) ==> h in l.requested)
    ensures var after := Apply(l, Acquire(r));
      l.woken != [] <==> exists i :: Enabled(after, Resume(i)) && |Apply(after, Resume(i)).holders| > 1
  {
    var after := Apply(l, Acquire(r));
    if l.woken != [] {
      var w := l.woken[0];
      assert w in Elements(l.woken);
      assert l.holders == {};
      assert Enabled(after, Resume(0));
      assert Apply(after, Resume(0)).holders == {r, w};
      assert |{r, w}| == 2;
    }
  }

  // ---------------------------------------------------------------- the table as the processor keeps it

  class LockTable {
    var pluginLocks: Table

    constructor ()
      ensures pluginLocks == map[]
    {
      pluginLocks := map[];
    }

    /** Up to the first await: the caller either holds the lock or its resolver is queued. */
    method Acquire(plugin: string, r: Request) returns (held: bool)
      requires Enabled(LockOf(pluginLocks, plugin), Event.Acquire(r))
      modifies this
      ensures pluginLocks == Step(old(pluginLocks), On(plugin, Event.Acquire(r)))
      ensures held == !LockOf(old(pluginLocks), plugin).locked
    {
      if plugin !in pluginLocks {
        pluginLocks := pluginLocks[plugin := FREE_LOCK];
      }
      var lock := pluginLocks[plugin];
      lock := lock.(requested := lock.requested + [r]);
      if lock.locked {
        lock := lock.(queue := lock.queue + [r]);
        held := false;
      } else {
        lock := lock.(locked := true, holders := lock.holders + {r}, granted := lock.granted + [r]);
        held := true;
      }
      pluginLocks := pluginLocks[plugin := lock];
    }

    /** The stretch after the await, when the scheduler gets to a resolved promise. */
    method Resume(plugin: string, i: nat)
      requires Enabled(LockOf(pluginLocks, plugin), Event.Resume(i))
      modifies this
      ensures pluginLocks == Step(old(pluginLocks), On(plugin, Event.Resume(i)))
    {
      var lock := pluginLocks[plugin];
      var r := lock.woken[i];
      lock := lock.(woken := lock.woken[..i] + lock.woken[i + 1..]);
      lock := lock.(locked := true, holders := lock.holders + {r}, granted := lock.granted + [r]);
      pluginLocks := pluginLocks[plugin := lock];
    }

    /** The release function handed to request r. */
    method Release(plugin: string, r: Request)
      requires Enabled(LockOf(pluginLocks, plugin), Event.Release(r))
      modifies this
      ensures pluginLocks == Step(old(pluginLocks), On(plugin, Event.Release(r)))
    {
      var lock := pluginLocks[plugin];
      lock := lock.(locked := false, holders := lock.holders - {r});
      if |lock.queue| > 0 {
        lock := lock.(queue := lock.queue[1..], woken := lock.woken + [lock.queue[0]]);
      }
      pluginLocks := pluginLocks[plugin := lock];
    }
  }
}
