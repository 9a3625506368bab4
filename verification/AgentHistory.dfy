/**
 * The agent accessor's two records: capped snapshots of the agent's state, and the tail of its lifecycle log. A
 * snapshot is known by its timestamp, as its cache key is; the cache's own expiry drops what is older than some age.
 */
module AgentHistory {
  import opened Prelude

  type AgentId = nat

  const MAX_STATE_HISTORY: nat := 1000
  const MAX_TRANSITION_EVENTS: nat := 1000

  datatype Kind = Initialized | Reconfigured | Destroyed
  datatype Transition = Transition(kind: Kind, timestamp: int)

  /**
   * `keys` are the snapshots' timestamps in the cache's order. `taken` and `fullLog` remember every snapshot and every
   * transition, `floor` the time before which everything has expired; the code keeps none of them.
   */
  datatype State = State(
    now: int,
    agent: Option<AgentId>,
    keys: seq<int>,
    transitions: seq<Transition>,
    taken: set<int>,
    floor: int,
    fullLog: seq<Transition>)

  datatype Event = Tick(elapsed: nat) | SetAgent(agent: Option<AgentId>) | TakeSnapshot | Expire(age: nat)

  // ---------------------------------------------------------------- snapshots

  /** The position of the oldest key: the first smallest one. */
  function Oldest(keys: seq<int>): (k: nat)
    requires keys != []
    ensures k < |keys| && forall i :: 0 <= i < |keys| ==> keys[k] <= keys[i]
  {
    if |keys| == 1 then 0 else
      var k := Oldest(keys[..|keys| - 1]);
      if keys[|keys| - 1] < keys[k] then |keys| - 1 else k
  }

  function Without(keys: seq<int>, k: nat): seq<int>
    requires k < |keys|
  {
    keys[..k] + keys[k + 1..]
  }

  function Stored(keys: seq<int>, ts: int): seq<int> {
    var room := if |keys| >= MAX_STATE_HISTORY then Without(keys, Oldest(keys)) else keys;
    if ts in room then room else room + [ts]
  }

  function NotOlder(keys: seq<int>, cutoff: int): seq<int> {
    if keys == [] then [] else
      (if keys[0] >= cutoff then [keys[0]] else []) + NotOlder(keys[1..], cutoff)
  }

  // ---------------------------------------------------------------- transitions

  /** The event setGlobalAgent emits, if any. */
  function Emitted(previous: Option<AgentId>, agent: Option<AgentId>): Option<Kind> {
    if previous.Some? && agent.None? then Some(Destroyed)
    else if previous.None? && agent.Some? then Some(Initialized)
    else if previous.Some? && previous != agent then Some(Reconfigured)
    else None
  }

  function Apply(s: State, e: Event): State {
    match e
    case Tick(d) => s.(now := s.now + d)
    case SetAgent(agent) =>
      var kind := Emitted(s.agent, agent);
      if kind.None? then s.(agent := agent)
      else
        var event := Transition(kind.value, s.now);
        s.(agent := agent,
           transitions := LastN(s.transitions + [event], MAX_TRANSITION_EVENTS),
           fullLog := s.fullLog + [event])
    case TakeSnapshot =>
      if s.agent.None? then s else s.(keys := Stored(s.keys, s.now), taken := s.taken + {s.now})
    case Expire(age) =>
      s.(keys := NotOlder(s.keys, s.now - age), floor := if s.now - age > s.floor then s.now - age else s.floor)
  }

  function Run(s: State, es: seq<Event>): State
    decreases |es|
  {
    if es == [] then s else Run(Apply(s, es[0]), es[1..])
  }

  ghost predicate Start(s: State) {
    s.agent == None && s.keys == [] && s.transitions == [] && s.taken == {} && s.floor <= s.now && s.fullLog == []
  }

  // ---------------------------------------------------------------- what the records say

  /** The keys are distinct, were all taken, and whatever was taken after a key that is kept is kept too. */
  ghost predicate NewestKept(keys: seq<int>, taken: set<int>) {
    && NoDuplicates(keys)
    && (forall t :: t in keys ==> t in taken)
    && (forall t, u :: t in keys && u in taken && t < u ==> u in keys)
  }

  lemma WithoutOldest(keys: seq<int>, taken: set<int>, k: nat)
    requires NewestKept(keys, taken) && k < |keys| && forall i :: 0 <= i < |keys| ==> keys[k] <= keys[i]
    ensures NewestKept(Without(keys, k), taken)
  {
    var rest := Without(keys, k);
    assert forall t :: t in keys <==> t in rest || t == keys[k];
    assert keys[k] !in rest;
    forall t, u | t in rest && u in taken && t < u ensures u in rest {
      var i :| 0 <= i < |keys| && keys[i] == t;
      assert keys[k] <= t;
    }
  }

  lemma StoredKeepsNewest(keys: seq<int>, taken: set<int>, now: int)
    requires NewestKept(keys, taken) && |keys| <= MAX_STATE_HISTORY && forall t :: t in taken ==> t <= now
    ensures NewestKept(Stored(keys, now), taken + {now}) && |Stored(keys, now)| <= MAX_STATE_HISTORY
  {
    if |keys| >= MAX_STATE_HISTORY {
      WithoutOldest(keys, taken, Oldest(keys));
    }
  }

  lemma {:induction false} ExpiryKeepsNewest(keys: seq<int>, cutoff: int)
    ensures forall t :: t in NotOlder(keys, cutoff) <==> t in keys && t >= cutoff
    ensures NoDuplicates(keys) ==> NoDuplicates(NotOlder(keys, cutoff))
    ensures |NotOlder(keys, cutoff)| <= |keys|
  {
    if keys != [] {
      ExpiryKeepsNewest(keys[1..], cutoff);
      assert NoDuplicates(keys) ==> NoDuplicates(keys[1..]) && keys[0] !in keys[1..];
    }
  }

  /** Nothing expired is kept; and all that has not expired is, unless the cap is reached, give or take one. */
  ghost predicate EnoughKept(keys: seq<int>, taken: set<int>, floor: int) {
    && (forall t :: t in keys ==> t >= floor)
    && ((forall t :: t in taken && t >= floor ==> t in keys) || |keys| >= 999)
  }

  lemma StoredKeepsEnough(keys: seq<int>, taken: set<int>, floor: int, now: int)
    requires EnoughKept(keys, taken, floor) && |keys| <= MAX_STATE_HISTORY && floor <= now
    ensures EnoughKept(Stored(keys, now), taken + {now}, floor) && now in Stored(keys, now)
    ensures |Stored(keys, now)| >= |keys| || (|keys| == MAX_STATE_HISTORY && now in keys)
  {
    if |keys| >= MAX_STATE_HISTORY {
      var k := Oldest(keys);
      assert forall t :: t in Without(keys, k) ==> t in keys;
    }
  }

  lemma {:induction false} NothingExpires(keys: seq<int>, cutoff: int)
    requires forall t :: t in keys ==> t >= cutoff
    ensures NotOlder(keys, cutoff) == keys
  {
    if keys != [] {
      assert keys[0] in keys && forall t :: t in keys[1..] ==> t in keys;
      NothingExpires(keys[1..], cutoff);
    }
  }

  lemma ExpiryKeepsEnough(keys: seq<int>, taken: set<int>, floor: int, cutoff: int)
    requires EnoughKept(keys, taken, floor) && NewestKept(keys, taken)
    ensures EnoughKept(NotOlder(keys, cutoff), taken, if cutoff > floor then cutoff else floor)
  {
    ExpiryKeepsNewest(keys, cutoff);
    if forall t :: t in keys ==> t >= cutoff {
      NothingExpires(keys, cutoff);
    } else {
      var gone :| gone in keys && gone < cutoff;
      forall t | t in taken && t >= cutoff ensures t in keys {
        assert gone < t;
      }
    }
  }

  /** The language (initialized reconfigured* destroyed)*, possibly cut short: `alive` tells where the word stops. */
  ghost predicate Lifecycle(log: seq<Transition>, alive: bool) {
    if log == [] then !alive else
      var init := log[..|log| - 1];
      match log[|log| - 1].kind
      case Initialized => alive && Lifecycle(init, false)
      case Reconfigured => alive && Lifecycle(init, true)
      case Destroyed => !alive && Lifecycle(init, true)
  }

  ghost predicate Ascending(log: seq<Transition>) {
    forall i, j :: 0 <= i <= j < |log| ==> log[i].timestamp <= log[j].timestamp
  }

  ghost predicate Sound(s: State) {
    && |s.keys| <= MAX_STATE_HISTORY && NewestKept(s.keys, s.taken) && (forall t :: t in s.taken ==> t <= s.now)
    && EnoughKept(s.keys, s.taken, s.floor) && s.floor <= s.now
    && s.transitions == LastN(s.fullLog, MAX_TRANSITION_EVENTS)
    && Lifecycle(s.fullLog, s.agent.Some?)
    && Ascending(s.fullLog) && (forall i :: 0 <= i < |s.fullLog| ==> s.fullLog[i].timestamp <= s.now)
  }

  lemma LogStep(log: seq<Transition>, event: Transition, previous: Option<AgentId>, agent: Option<AgentId>)
    requires Lifecycle(log, previous.Some?) && Emitted(previous, agent) == Some(event.kind)
    ensures Lifecycle(log + [event], agent.Some?)
    ensures LastN(LastN(log, MAX_TRANSITION_EVENTS) + [event], MAX_TRANSITION_EVENTS) == LastN(log + [event], MAX_TRANSITION_EVENTS)
  {
    assert (log + [event])[..|log|] == log;
  }

  lemma SoundStep(s: State, e: Event)
    requires Sound(s)
    ensures Sound(Apply(s, e))
  {
    match e
    case SetAgent(agent) =>
      if Emitted(s.agent, agent).Some? {
        LogStep(s.fullLog, Transition(Emitted(s.agent, agent).value, s.now), s.agent, agent);
      }
    case TakeSnapshot =>
      StoredKeepsNewest(s.keys, s.taken, s.now);
      StoredKeepsEnough(s.keys, s.taken, s.floor, s.now);
    case Expire(age) =>
      ExpiryKeepsNewest(s.keys, s.now - age);
      ExpiryKeepsEnough(s.keys, s.taken, s.floor, s.now - age);
    case Tick(_) =>
  }

  lemma {:induction false} SoundRun(s: State, es: seq<Event>)
    requires Sound(s)
    ensures Sound(Run(s, es))
    decreases |es|
  {
    if es != [] {
      SoundStep(s, es[0]);
      SoundRun(Apply(s, es[0]), es[1..]);
    }
  }

  /**
   * Over every run, the snapshots stay within the cap and are a newest-first-closed part of all snapshots taken: all
   * that have not expired, or else at least 999 of them.
   */
  lemma SnapshotsAreTheNewest(s: State, es: seq<Event>)
    requires Start(s)
    ensures var t := Run(s, es);
      |t.keys| <= 1000 && NewestKept(t.keys, t.taken) && EnoughKept(t.keys, t.taken, t.floor)
  {
    SoundRun(s, es);
  }

  /** A snapshot is there once taken; and one fewer is kept only when it is retaken within its millisecond at the cap. */
  lemma SnapshotIsStored(s: State, es: seq<Event>)
    requires Start(s) && Run(s, es).agent.Some?
    ensures var t := Run(s, es);
      var u := Apply(t, TakeSnapshot);
      && t.now in u.keys
      && (|u.keys| < |t.keys| <==> |t.keys| == MAX_STATE_HISTORY && t.now in t.keys)
      && |u.keys| >= |t.keys| - 1
  {
    SoundRun(s, es);
    var t := Run(s, es);
    StoredKeepsEnough(t.keys, t.taken, t.floor, t.now);
    if |t.keys| == MAX_STATE_HISTORY && t.now in t.keys {
      RetakenAtCap(t.keys, t.now);
    }
  }

  lemma OthersStay(keys: seq<int>, k: nat, i: nat)
    requires k < |keys| && i < |keys| && i != k
    ensures keys[i] in Without(keys, k)
  {
    assert Without(keys, k)[if i < k then i else i - 1] == keys[i];
  }

  lemma NewestIsNotOldest(keys: seq<int>, i: nat)
    requires |keys| >= 2 && NoDuplicates(keys) && i < |keys| && forall t :: t in keys ==> t <= keys[i]
    ensures Oldest(keys) != i
  {
    var j := if i == 0 then 1 else 0;
    assert keys[j] in keys && keys[j] != keys[i];
  }

  /** The snapshot of this millisecond is not the oldest of a thousand, so it is still there when it is set again. */
  lemma RetakenAtCap(keys: seq<int>, now: int)
    requires |keys| == MAX_STATE_HISTORY && NoDuplicates(keys) && now in keys && forall t :: t in keys ==> t <= now
    ensures |Stored(keys, now)| == MAX_STATE_HISTORY - 1
  {
    var i :| 0 <= i < |keys| && keys[i] == now;
    NewestIsNotOldest(keys, i);
    OthersStay(keys, Oldest(keys), i);
  }

  /**
   * Over every run, the kept log is the last 1000 events of a full log in which each life starts with one initialized,
   * goes through reconfigurations and ends with destroyed; its last event says whether an agent is set.
   */
  lemma LogTellsTheLife(s: State, es: seq<Event>)
    requires Start(s)
    ensures var t := Run(s, es);
      && t.transitions == LastN(t.fullLog, 1000)
      && Lifecycle(t.fullLog, t.agent.Some?)
      && (t.transitions == [] ==> t.agent.None?)
      && (t.transitions != [] ==>
            (t.agent.Some? <==> t.transitions[|t.transitions| - 1].kind != Destroyed))
  {
    SoundRun(s, es);
  }

  /** How often the agent is set to something else than it was, read off the events alone. */
  function Changes(agent: Option<AgentId>, es: seq<Event>): nat
    decreases |es|
  {
    if es == [] then 0
    else if es[0].SetAgent? then (if es[0].agent != agent then 1 else 0) + Changes(es[0].agent, es[1..])
    else Changes(agent, es[1..])
  }

  /** Setting an agent logs one event, with the time, if that changes who is set, and none otherwise. */
  lemma ChangeIsLogged(s: State, next: Option<AgentId>)
    ensures var t := Apply(s, SetAgent(next));
      && t.agent == next && t.keys == s.keys
      && (next == s.agent ==> t.fullLog == s.fullLog && t.transitions == s.transitions)
      && (next != s.agent ==> exists kind ::
            && t.fullLog == s.fullLog + [Transition(kind, s.now)]
            && (kind == Initialized <==> s.agent.None?) && (kind == Destroyed <==> next.None?))
  {
    if next != s.agent {
      var kind := Emitted(s.agent, next).value;
      assert Apply(s, SetAgent(next)).fullLog == s.fullLog + [Transition(kind, s.now)];
    }
  }

  /** Over every run, the full log has exactly one event for each change of agent. */
  lemma {:induction false} EveryChangeIsLogged(s: State, es: seq<Event>)
    ensures |Run(s, es).fullLog| == |s.fullLog| + Changes(s.agent, es)
    decreases |es|
  {
    if es != [] {
      EveryChangeIsLogged(Apply(s, es[0]), es[1..]);
      if es[0].SetAgent? {
        ChangeIsLogged(s, es[0].agent);
      }
    }
  }

  // ---------------------------------------------------------------- reading the records

  /** Newest first; the keys are distinct, so no tie has to be broken. */
  function InsertNewest(t: int, sorted: seq<int>): seq<int> {
    if sorted == [] || t > sorted[0] then [t] + sorted else [sorted[0]] + InsertNewest(t, sorted[1..])
  }

  function NewestFirst(keys: seq<int>): seq<int> {
    if keys == [] then [] else InsertNewest(keys[0], NewestFirst(keys[1..]))
  }

  ghost predicate StrictlyNewestFirst(s: seq<int>) {
    forall i, j :: 0 <= i < j < |s| ==> s[i] > s[j]
  }

  lemma {:induction false} InsertNewestSorted(t: int, sorted: seq<int>)
    requires StrictlyNewestFirst(sorted) && t !in sorted
    ensures StrictlyNewestFirst(InsertNewest(t, sorted)) && |InsertNewest(t, sorted)| == |sorted| + 1
    ensures forall u :: u in InsertNewest(t, sorted) <==> u == t || u in sorted
  {
    if sorted != [] && t <= sorted[0] {
      var rest := InsertNewest(t, sorted[1..]);
      InsertNewestSorted(t, sorted[1..]);
      assert forall u :: u in sorted <==> u == sorted[0] || u in sorted[1..];
      forall i | 0 <= i < |rest| ensures sorted[0] > rest[i] {
        assert rest[i] in rest;
      }
    }
  }

  lemma {:induction false} NewestFirstSorted(keys: seq<int>)
    requires NoDuplicates(keys)
    ensures StrictlyNewestFirst(NewestFirst(keys)) && |NewestFirst(keys)| == |keys|
    ensures forall u :: u in NewestFirst(keys) <==> u in keys
  {
    if keys != [] {
      assert NoDuplicates(keys[1..]) && keys[0] !in keys[1..];
      NewestFirstSorted(keys[1..]);
      InsertNewestSorted(keys[0], NewestFirst(keys[1..]));
    }
  }

  /** Oldest first and stable, as Array.prototype.sort is. */
  function InsertOldest(t: Transition, sorted: seq<Transition>): seq<Transition> {
    if sorted == [] || t.timestamp <= sorted[0].timestamp then [t] + sorted
    else [sorted[0]] + InsertOldest(t, sorted[1..])
  }

  function OldestFirst(log: seq<Transition>): seq<Transition> {
    if log == [] then [] else InsertOldest(log[0], OldestFirst(log[1..]))
  }

  lemma {:induction false} AscendingIsSorted(log: seq<Transition>)
    requires Ascending(log)
    ensures OldestFirst(log) == log
  {
    if log != [] {
      assert Ascending(log[1..]);
      AscendingIsSorted(log[1..]);
    }
  }

  // ---------------------------------------------------------------- the accessor

  class AgentAccessor {
    var now: int
    var agent: Option<AgentId>
    var stateHistory: seq<int>
    var transitionEvents: seq<Transition>
    ghost var taken: set<int>
    ghost var floor: int
    ghost var fullLog: seq<Transition>

    ghost function Snapshot(): State
      reads this
    {
      State(now, agent, stateHistory, transitionEvents, taken, floor, fullLog)
    }

    constructor (now: int)
      ensures Start(Snapshot()) && Sound(Snapshot())
    {
      this.now, agent, stateHistory, transitionEvents := now, None, [], [];
      taken, floor, fullLog := {}, now, [];
    }

    method SetGlobalAgent(next: Option<AgentId>)
      requires Sound(Snapshot())
      modifies this
      ensures Snapshot() == Apply(old(Snapshot()), SetAgent(next)) && Sound(Snapshot())
    {
      SoundStep(Snapshot(), SetAgent(next));
      var previous := agent;
      agent := next;
      if previous.Some? && next.None? {
        HandleStateTransition(Destroyed);
      } else if previous.None? && next.Some? {
        HandleStateTransition(Initialized);
      } else if previous.Some? && next.Some? && previous != next {
        HandleStateTransition(Reconfigured);
      }
    }

    method HandleStateTransition(kind: Kind)
      modifies this`transitionEvents, this`fullLog
      ensures transitionEvents == LastN(old(transitionEvents) + [Transition(kind, now)], MAX_TRANSITION_EVENTS)
      ensures fullLog == old(fullLog) + [Transition(kind, now)]
    {
      transitionEvents := transitionEvents + [Transition(kind, now)];
      fullLog := fullLog + [Transition(kind, now)];
      if |transitionEvents| > MAX_TRANSITION_EVENTS {
        transitionEvents := LastN(transitionEvents, MAX_TRANSITION_EVENTS);
      }
    }

    method FindOldest() returns (oldest: nat)
      requires stateHistory != []
      ensures oldest == Oldest(stateHistory)
    {
      oldest := 0;
      var i := 1;
      while i < |stateHistory|
        invariant 1 <= i <= |stateHistory| && oldest == Oldest(stateHistory[..i])
      {
        assert stateHistory[..i + 1][..i] == stateHistory[..i];
        if stateHistory[i] < stateHistory[oldest] {
          oldest := i;
        }
        i := i + 1;
      }
      assert stateHistory[..i] == stateHistory;
    }

    /** getAgentState's storing part: evict the oldest snapshot at the cap, then set the new one. */
    method GetAgentState() returns (stored: bool)
      requires Sound(Snapshot())
      modifies this
      ensures stored == old(agent).Some?
      ensures Snapshot() == Apply(old(Snapshot()), TakeSnapshot) && Sound(Snapshot())
    {
      SoundStep(Snapshot(), TakeSnapshot);
      if agent.None? {
        return false;
      }
      if |stateHistory| >= MAX_STATE_HISTORY {
        var oldest := FindOldest();
        stateHistory := Without(stateHistory, oldest);
      }
      if now !in stateHistory {
        stateHistory := stateHistory + [now];
      }
      taken := taken + {now};
      return true;
    }

    /** The newest `limit` snapshots, strictly newest first; every snapshot left out is older than all of them. */
    method GetAgentStateHistory(limit: nat) returns (history: seq<int>)
      requires Sound(Snapshot())
      ensures StrictlyNewestFirst(history)
      ensures |history| == if limit < |stateHistory| then limit else |stateHistory|
      ensures forall t :: t in history ==> t in stateHistory
      ensures forall t, u :: t in history && u in taken && u > t ==> u in history
    {
      NewestFirstSorted(stateHistory);
      var sorted := NewestFirst(stateHistory);
      history := if limit < |sorted| then sorted[..limit] else sorted;
      forall t, u | t in history && u in taken && u > t ensures u in history {
        assert t in sorted && u in sorted;
        var i, j :| 0 <= i < |history| && history[i] == t && 0 <= j < |sorted| && sorted[j] == u;
        assert sorted[i] == t;
      }
    }

    /** With a clock that never goes back, sorting by timestamp returns the kept log as it is. */
    method GetStateTransitionEvents() returns (events: seq<Transition>)
      requires Sound(Snapshot())
      ensures events == transitionEvents
    {
      AscendingIsSorted(transitionEvents);
      events := OldestFirst(transitionEvents);
    }
  }
}
