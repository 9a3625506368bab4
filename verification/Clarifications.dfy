/**
 * Questions parked per user until their next message, and taken at most once. The store sweeps expired entries as it
 * goes; the reference is the plain history of parks and takes, which forgets nothing.
 */
module Clarifications {
  import opened Prelude

  type UserId = string

  datatype Task = Task(query: string, question: string)

  /** A parked task. `ticket` numbers the parks; the code keeps no such number. */
  datatype Entry = Entry(task: Task, expires: int, ticket: nat)

  function UserKey(user: UserId): UserId {
    if user == "" then "default" else user
  }

  /** A user without an id goes by the name "default"; otherwise a user shares entries with nobody. */
  predicate SameUser(u: UserId, v: UserId) {
    u == v || (u in ["", "default"] && v in ["", "default"])
  }

  lemma KeysTellUsers(u: UserId, v: UserId)
    ensures UserKey(u) == UserKey(v) <==> SameUser(u, v)
    ensures UserKey(UserKey(u)) == UserKey(u)
  {
  }

  /** What a take of this entry gives at time t. */
  function Live(e: Option<Entry>, t: int): Option<Task> {
    if e.Some? && t < e.value.expires then Some(e.value.task) else None
  }

  // ---------------------------------------------------------------- the store

  /** `resumed` lists the tickets whose task was handed out. */
  datatype Store = Store(ttl: int, now: int, pending: map<UserId, Entry>, parks: nat, resumed: seq<nat>)

  /** `lag` is the time between the two clock readings of a park. */
  datatype Event = Tick(elapsed: nat) | Park(user: UserId, task: Task, lag: nat) | Take(user: UserId)

  function Swept(pending: map<UserId, Entry>, now: int): map<UserId, Entry> {
    map u | u in pending && now < pending[u].expires :: pending[u]
  }

  function Pending(s: Store, user: UserId): Option<Entry> {
    if user in s.pending then Some(s.pending[user]) else None
  }

  function TakeReply(s: Store, user: UserId): Option<Task> {
    Live(Pending(s, UserKey(user)), s.now)
  }

  function Apply(s: Store, e: Event): Store {
    match e
    case Tick(d) => s.(now := s.now + d)
    case Park(user, task, lag) =>
      var later := s.now + lag;
      s.(now := later,
         pending := Swept(s.pending, s.now)[UserKey(user) := Entry(task, later + s.ttl, s.parks)],
         parks := s.parks + 1)
    case Take(user) =>
      var key := UserKey(user);
      if key !in s.pending then s
      else s.(pending := s.pending - {key},
              resumed := if s.now < s.pending[key].expires then s.resumed + [s.pending[key].ticket] else s.resumed)
  }

  function Run(s: Store, es: seq<Event>): Store
    decreases |es|
  {
    if es == [] then s else Run(Apply(s, es[0]), es[1..])
  }

  ghost predicate Fresh(s: Store) {
    s.pending == map[] && s.parks == 0 && s.resumed == []
  }

  // ---------------------------------------------------------------- the history

  datatype Fact = Parked(user: UserId, entry: Entry) | Taken(user: UserId)

  /** The last question parked for the user, unless a take came after it. */
  function Last(history: seq<Fact>, user: UserId): Option<Entry> {
    if history == [] then None else
      var f := history[|history| - 1];
      if !SameUser(f.user, user) then Last(history[..|history| - 1], user)
      else match f
        case Parked(_, entry) => Some(entry)
        case Taken(_) => None
  }

  function Note(history: seq<Fact>, s: Store, e: Event): seq<Fact> {
    match e
    case Tick(_) => history
    case Park(user, task, lag) => history + [Parked(user, Entry(task, s.now + lag + s.ttl, s.parks))]
    case Take(user) => history + [Taken(user)]
  }

  function History(history: seq<Fact>, s: Store, es: seq<Event>): seq<Fact>
    decreases |es|
  {
    if es == [] then history else History(Note(history, s, es[0]), Apply(s, es[0]), es[1..])
  }

  /** The store holds the user's last question, or has dropped one that can no longer be given. */
  ghost predicate Agrees(s: Store, history: seq<Fact>, user: UserId) {
    var last, key := Last(history, user), UserKey(user);
    Pending(s, key) == last || (key !in s.pending && last.Some? && last.value.expires <= s.now)
  }

  ghost predicate Refines(s: Store, history: seq<Fact>) {
    forall user :: Agrees(s, history, user)
  }

  lemma LastOf(history: seq<Fact>, f: Fact, user: UserId)
    ensures Last(history + [f], user) ==
      if !SameUser(f.user, user) then Last(history, user) else if f.Parked? then Some(f.entry) else None
  {
    assert (history + [f])[..|history|] == history;
  }

  lemma RefinesStep(s: Store, history: seq<Fact>, e: Event)
    requires Refines(s, history)
    ensures Refines(Apply(s, e), Note(history, s, e))
  {
    forall user ensures Agrees(Apply(s, e), Note(history, s, e), user) {
      assert Agrees(s, history, user);
      match e
      case Tick(_) =>
      case Park(u, task, lag) =>
        KeysTellUsers(u, user);
        LastOf(history, Parked(u, Entry(task, s.now + lag + s.ttl, s.parks)), user);
      case Take(u) =>
        KeysTellUsers(u, user);
        LastOf(history, Taken(u), user);
    }
  }

  lemma {:induction false} RefinesRun(s: Store, history: seq<Fact>, es: seq<Event>)
    requires Refines(s, history)
    ensures Refines(Run(s, es), History(history, s, es))
    decreases |es|
  {
    if es != [] {
      RefinesStep(s, history, es[0]);
      RefinesRun(Apply(s, es[0]), Note(history, s, es[0]), es[1..]);
    }
  }

  /**
   * After any run, a take gives the last question parked for the user exactly when none was taken since and its time
   * has not run out: the sweeps on the way make no difference.
   */
  lemma TakeFollowsHistory(s: Store, es: seq<Event>, user: UserId)
    requires Fresh(s)
    ensures var t := Run(s, es);
      match Last(History([], s, es), user)
      case None => TakeReply(t, user) == None
      case Some(entry) => TakeReply(t, user) == if t.now < entry.expires then Some(entry.task) else None
  {
    RefinesRun(s, [], es);
    assert Agrees(Run(s, es), History([], s, es), user);
  }

  /** A sweep at one time changes no take at that time or later. */
  lemma SweepIsInvisible(s: Store, user: UserId, t: int)
    requires s.now <= t
    ensures Live(Pending(s.(pending := Swept(s.pending, s.now)), user), t) == Live(Pending(s, user), t)
  {
  }

  /** Nobody's question outlives a sweep: right after a park, all other entries were live when it began. */
  lemma ParkLeavesLive(s: Store, user: UserId, task: Task, lag: nat, u: UserId)
    requires u in Apply(s, Park(user, task, lag)).pending
    ensures var e := Apply(s, Park(user, task, lag)).pending[u];
      if u == UserKey(user) then e == Entry(task, s.now + lag + s.ttl, s.parks)
      else u in s.pending && e == s.pending[u] && s.now < e.expires
  {
  }

  // ---------------------------------------------------------------- each task resumes at most once

  ghost predicate Numbered(s: Store) {
    && (forall u :: u in s.pending ==> s.pending[u].ticket < s.parks && s.pending[u].ticket !in s.resumed)
    && (forall u, v :: u in s.pending && v in s.pending && u != v ==> s.pending[u].ticket != s.pending[v].ticket)
    && (forall n :: n in s.resumed ==> n < s.parks)
    && NoDuplicates(s.resumed)
  }

  lemma NumberedStep(s: Store, e: Event)
    requires Numbered(s)
    ensures Numbered(Apply(s, e))
  {
    if e.Take? && UserKey(e.user) in s.pending {
      NoDuplicatesSnoc(s.resumed, s.pending[UserKey(e.user)].ticket);
    }
  }

  lemma {:induction false} EachTaskResumesAtMostOnce(s: Store, es: seq<Event>)
    requires Numbered(s)
    ensures NoDuplicates(Run(s, es).resumed)
    decreases |es|
  {
    if es != [] {
      NumberedStep(s, es[0]);
      EachTaskResumesAtMostOnce(Apply(s, es[0]), es[1..]);
    }
  }

  function ParkOf(e: Event): seq<(UserId, Task)> {
    if e.Park? then [(e.user, e.task)] else []
  }

  /** Who parked what, in order, read off the events alone: the n-th park is ticket n. */
  function ParksOf(es: seq<Event>): seq<(UserId, Task)> {
    if es == [] then [] else ParkOf(es[0]) + ParksOf(es[1..])
  }

  /** The n-th task parked was this one, and this user's. */
  ghost predicate HandsOut(parked: seq<(UserId, Task)>, n: nat, user: UserId, task: Task) {
    n < |parked| && SameUser(parked[n].0, user) && parked[n].1 == task
  }

  /** Every pending task is the one its ticket was given for, under its user's key. */
  ghost predicate Ticketed(s: Store, parked: seq<(UserId, Task)>) {
    && s.parks == |parked|
    && forall k :: k in s.pending ==> UserKey(k) == k && HandsOut(parked, s.pending[k].ticket, k, s.pending[k].task)
  }

  lemma TicketedStep(s: Store, parked: seq<(UserId, Task)>, e: Event)
    requires Ticketed(s, parked)
    ensures Ticketed(Apply(s, e), parked + ParkOf(e))
  {
    if e.Park? {
      KeysTellUsers(e.user, UserKey(e.user));
    }
  }

  lemma {:induction false} TicketedRun(s: Store, parked: seq<(UserId, Task)>, es: seq<Event>)
    requires Ticketed(s, parked)
    ensures Ticketed(Run(s, es), parked + ParksOf(es))
    decreases |es|
  {
    if es == [] {
      assert parked + [] == parked;
    } else {
      TicketedStep(s, parked, es[0]);
      TicketedRun(Apply(s, es[0]), parked + ParkOf(es[0]), es[1..]);
      Associates(parked, ParkOf(es[0]), ParksOf(es[1..]));
    }
  }

  /**
   * After any run, a task that is handed out is one the user parked, and its ticket is used up; by
   * EachTaskResumesAtMostOnce it never was before and never will be again. A take that hands out nothing uses up none.
   */
  lemma TakeUsesUpItsTicket(s: Store, es: seq<Event>, user: UserId)
    requires Fresh(s)
    ensures var t := Run(s, es);
      var after := Apply(t, Take(user));
      match TakeReply(t, user)
      case None => after.resumed == t.resumed
      case Some(task) => exists n :: HandsOut(ParksOf(es), n, user, task) && after.resumed == t.resumed + [n]
  {
    TicketedRun(s, [], es);
    assert [] + ParksOf(es) == ParksOf(es);
    if TakeReply(Run(s, es), user).Some? {
      TakenTicket(Run(s, es), ParksOf(es), user);
    }
  }

  lemma TakenTicket(t: Store, parked: seq<(UserId, Task)>, user: UserId)
    requires Ticketed(t, parked) && TakeReply(t, user).Some?
    ensures var n := t.pending[UserKey(user)].ticket;
      HandsOut(parked, n, user, TakeReply(t, user).value) && Apply(t, Take(user)).resumed == t.resumed + [n]
  {
    KeysTellUsers(UserKey(user), user);
  }

  // ---------------------------------------------------------------- the class

  class ClarificationStore {
    const ttlMs: int
    var now: int
    var pending: map<UserId, Entry>
    var parks: nat
    ghost var resumed: seq<nat>

    ghost function Snapshot(): Store
      reads this
    {
      Store(ttlMs, now, pending, parks, resumed)
    }

    constructor (ttlMs: int, now: int)
      ensures Fresh(Snapshot()) && this.ttlMs == ttlMs && this.now == now
    {
      this.ttlMs, this.now, pending, parks, resumed := ttlMs, now, map[], 0, [];
    }

    method Sweep()
      modifies this`pending
      ensures pending == Swept(old(pending), now)
    {
      var keys := pending.Keys;
      while keys != {}
        invariant keys <= pending.Keys <= old(pending).Keys
        invariant forall u :: u in pending ==> pending[u] == old(pending)[u]
        invariant forall u :: u in old(pending) && (u in keys || now < old(pending)[u].expires) ==> u in pending
        invariant forall u :: u in pending && u !in keys ==> now < pending[u].expires
        decreases |keys|
      {
        var u :| u in keys;
        if now >= pending[u].expires {
          pending := pending - {u};
        }
        keys := keys - {u};
      }
    }

    method ParkTask(user: UserId, task: Task, lag: nat)
      modifies this
      ensures Snapshot() == Apply(old(Snapshot()), Park(user, task, lag))
    {
      Sweep();
      now := now + lag;
      pending := pending[UserKey(user) := Entry(task, now + ttlMs, parks)];
      parks := parks + 1;
    }

    method TakeTask(user: UserId) returns (task: Option<Task>)
      modifies this
      ensures task == TakeReply(old(Snapshot()), user)
      ensures Snapshot() == Apply(old(Snapshot()), Take(user))
    {
      var key := UserKey(user);
      if key !in pending {
        return None;
      }
      var entry := pending[key];
      pending := pending - {key};
      if now < entry.expires {
        resumed := resumed + [entry.ticket];
        return Some(entry.task);
      }
      return None;
    }
  }
}
