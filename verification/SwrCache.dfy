/**
 * The contract routes' cache: fresh answers, stale answers with a background refresh, and one shared fetch per key.
 * The state machine's events are the stretches of code between awaits, plus time passing and the store dropping a key.
 */
module SwrCache {
  import opened Prelude

  type Key = string
  type FetchId = nat
  type CallId = nat

  datatype Value = Undefined | Payload(n: nat)

  /** A store entry. `source` records which fetch wrote an envelope; the code does not keep it. */
  datatype Entry =
    | Envelope(data: Value, expiresAt: int, swrTtl: int, source: FetchId)
    | Legacy(value: Value)

  datatype Options = Options(ttl: int, swrTtl: int, revalidate: bool)

  datatype Progress = Pending | Resolved(value: Value, at: int) | Rejected(at: int)

  datatype Fetch = Fetch(key: Key, ttl: int, swrTtl: int, progress: Progress)

  /** How a call ended. The value handed to the caller is in `value`; the rest is for the claims below. */
  datatype Answer =
    | Fresh(value: Value, source: FetchId)
    | Stale(value: Value, source: FetchId)
    | LegacyHit(value: Value)
    | Fetched(value: Value, fetch: FetchId)
    | Fallback(value: Value, fetch: FetchId, source: FetchId)
    | FallbackLegacy(value: Value, fetch: FetchId)
    | FallbackEnvelope(fetch: FetchId, source: FetchId)
    | Failed(fetch: FetchId)

  datatype Status = Waiting(fetch: FetchId) | Answered(answer: Answer, at: int)

  datatype Call = Call(key: Key, options: Options, startedAt: int, status: Status)

  datatype State = State(
    now: int,
    cache: map<Key, Entry>,
    inFlight: map<Key, FetchId>,
    fetches: seq<Fetch>,
    calls: map<CallId, Call>)

  datatype Event =
    | Tick(elapsed: nat)
    | Begin(call: CallId, key: Key, options: Options)
    | Resolve(fetch: FetchId, value: Value)
    | Reject(fetch: FetchId)
    | Deliver(call: CallId)
    | Evict(key: Key)

  predicate IsPending(s: State, f: FetchId) {
    f < |s.fetches| && s.fetches[f].progress.Pending?
  }

  predicate Enabled(s: State, e: Event) {
    match e
    case Tick(d) => true
    case Begin(c, key, options) => c !in s.calls
    case Resolve(f, v) => IsPending(s, f)
    case Reject(f) => IsPending(s, f)
    case Deliver(c) =>
      c in s.calls && s.calls[c].status.Waiting? && s.calls[c].status.fetch < |s.fetches| &&
      !IsPending(s, s.calls[c].status.fetch)
    case Evict(key) => true
  }

  // ---------------------------------------------------------------- the code, stretch by stretch

  /** inFlight.set(key, fetch()) unless the key is in flight already. */
  function EnsureFetch(s: State, key: Key, o: Options): State {
    if key in s.inFlight then s
    else s.(fetches := s.fetches + [Fetch(key, o.ttl, o.swrTtl, Pending)], inFlight := s.inFlight[key := |s.fetches|])
  }

  function Enter(s: State, c: CallId, key: Key, o: Options, status: Status): State {
    s.(calls := s.calls[c := Call(key, o, s.now, status)])
  }

  /** A freshness test on an envelope, and the wider window in which a stale one may still be served. */
  predicate IsFresh(s: State, key: Key) {
    key in s.cache && s.cache[key].Envelope? && s.now < s.cache[key].expiresAt
  }

  predicate IsServable(s: State, key: Key, o: Options) {
    key in s.cache && s.cache[key].Envelope? && s.now < s.cache[key].expiresAt + o.swrTtl * 1000
  }

  function BeginCall(s: State, c: CallId, key: Key, o: Options): State {
    if IsFresh(s, key) && !o.revalidate then
      Enter(s, c, key, o, Answered(Fresh(s.cache[key].data, s.cache[key].source), s.now))
    else if IsServable(s, key, o) && !o.revalidate then
      Enter(EnsureFetch(s, key, o), c, key, o, Answered(Stale(s.cache[key].data, s.cache[key].source), s.now))
    else if key in s.cache && s.cache[key].Legacy? && !o.revalidate then
      Enter(s, c, key, o, Answered(LegacyHit(s.cache[key].value), s.now))
    else
      var t := EnsureFetch(s, key, o);
      Enter(t, c, key, o, Waiting(t.inFlight[key]))
  }

  function Settle(s: State, f: FetchId, p: Progress): State
    requires f < |s.fetches|
  {
    s.(fetches := s.fetches[f := s.fetches[f].(progress := p)], inFlight := s.inFlight - {s.fetches[f].key})
  }

  function ResolveFetch(s: State, f: FetchId, v: Value): State
    requires f < |s.fetches|
  {
    var fetch := s.fetches[f];
    var stored := Envelope(v, s.now + fetch.ttl * 1000, fetch.swrTtl, f);
    Settle(s.(cache := s.cache[fetch.key := stored]), f, Resolved(v, s.now))
  }

  /** The catch block: anything in the store beats the error. */
  function ErrorAnswer(s: State, key: Key, f: FetchId): Answer {
    if key !in s.cache then Failed(f)
    else match s.cache[key]
      case Envelope(data, _, _, source) => if data != Undefined then Fallback(data, f, source) else FallbackEnvelope(f, source)
      case Legacy(value) => FallbackLegacy(value, f)
  }

  function DeliverCall(s: State, c: CallId): State
    requires Enabled(s, Deliver(c))
  {
    var call := s.calls[c];
    var f := call.status.fetch;
    var answer := match s.fetches[f].progress
      case Resolved(v, _) => Fetched(v, f)
      case Rejected(_) => ErrorAnswer(s, call.key, f);
    s.(calls := s.calls[c := call.(status := Answered(answer, s.now))])
  }

  function Apply(s: State, e: Event): State
    requires Enabled(s, e)
  {
    match e
    case Tick(d) => s.(now := s.now + d)
    case Begin(c, key, o) => BeginCall(s, c, key, o)
    case Resolve(f, v) => ResolveFetch(s, f, v)
    case Reject(f) => Settle(s, f, Rejected(s.now))
    case Deliver(c) => DeliverCall(s, c)
    case Evict(key) => s.(cache := s.cache - {key})
  }

  predicate Interleaving(s: State, es: seq<Event>)
    decreases |es|
  {
    es == [] || (Enabled(s, es[0]) && Interleaving(Apply(s, es[0]), es[1..]))
  }

  function Run(s: State, es: seq<Event>): State
    requires Interleaving(s, es)
    decreases |es|
  {
    if es == [] then s else Run(Apply(s, es[0]), es[1..])
  }

  /** Nothing running, nothing asked; the store may hold entries written by an older version. */
  ghost predicate Start(s: State) {
    s.inFlight == map[] && s.fetches == [] && s.calls == map[] && forall k :: k in s.cache ==> s.cache[k].Legacy?
  }

  // ---------------------------------------------------------------- invariants

  /** `inFlight` holds a key exactly while a fetch for it runs, and then that one fetch. */
  ghost predicate InFlightExact(s: State) {
    && (forall k :: k in s.inFlight ==> IsPending(s, s.inFlight[k]) && s.fetches[s.inFlight[k]].key == k)
    && (forall f: FetchId :: IsPending(s, f) ==> s.fetches[f].key in s.inFlight && s.inFlight[s.fetches[f].key] == f)
  }

  /** Fetch f brought back v for the key at time t. */
  ghost predicate Brought(s: State, f: FetchId, key: Key, v: Value, t: int) {
    f < |s.fetches| && s.fetches[f].key == key && s.fetches[f].progress == Resolved(v, t) && t <= s.now
  }

  ghost predicate StoreSound(s: State) {
    forall k :: k in s.cache && s.cache[k].Envelope? ==>
      Brought(s, s.cache[k].source, k, s.cache[k].data, StoredAt(s, s.cache[k]))
  }

  /** When an envelope was written, from its expiry and the lifetime its writer asked for. */
  ghost function StoredAt(s: State, e: Entry): int
    requires e.Envelope?
  {
    if e.source < |s.fetches| then e.expiresAt - s.fetches[e.source].ttl * 1000 else 0
  }

  /** The fetch failed for the key no earlier than t. */
  ghost predicate FailedSince(s: State, f: FetchId, key: Key, t: int) {
    f < |s.fetches| && s.fetches[f].key == key && s.fetches[f].progress.Rejected? && t <= s.fetches[f].progress.at
  }

  /**
   * What each way of answering promises. A value that was not fetched during the call is younger than the lifetime
   * its fetch asked for plus the stale window this call allows; only a failed fetch during the call lifts that bound.
   */
  ghost predicate AnswerSound(s: State, call: Call, answer: Answer, at: int) {
    match answer
    case Fresh(v, f) =>
      f < |s.fetches| && !call.options.revalidate &&
      exists t :: Brought(s, f, call.key, v, t) && at < t + s.fetches[f].ttl * 1000
    case Stale(v, f) =>
      f < |s.fetches| && !call.options.revalidate &&
      exists t :: Brought(s, f, call.key, v, t) && at < t + (s.fetches[f].ttl + call.options.swrTtl) * 1000
    case LegacyHit(v) => !call.options.revalidate
    case Fetched(v, f) => exists t :: Brought(s, f, call.key, v, t) && call.startedAt <= t <= at
    case Fallback(v, f, g) =>
      FailedSince(s, f, call.key, call.startedAt) && exists t :: Brought(s, g, call.key, v, t) && t <= at
    case FallbackLegacy(v, f) => FailedSince(s, f, call.key, call.startedAt)
    case FallbackEnvelope(f, g) =>
      FailedSince(s, f, call.key, call.startedAt) && exists t :: Brought(s, g, call.key, Undefined, t) && t <= at
    case Failed(f) => FailedSince(s, f, call.key, call.startedAt)
  }

  ghost predicate CallSound(s: State, call: Call) {
    match call.status
    case Waiting(f) =>
      && f < |s.fetches| && s.fetches[f].key == call.key && call.startedAt <= s.now
      && (s.fetches[f].progress.Resolved? ==> call.startedAt <= s.fetches[f].progress.at <= s.now)
      && (s.fetches[f].progress.Rejected? ==> call.startedAt <= s.fetches[f].progress.at)
    case Answered(answer, at) => at <= s.now && AnswerSound(s, call, answer, at)
  }

  ghost predicate CallsSound(s: State) {
    forall c :: c in s.calls ==> CallSound(s, s.calls[c])
  }

  ghost predicate Sound(s: State) {
    && InFlightExact(s)
    && StoreSound(s)
    && CallsSound(s)
  }

  /** Time has not gone back, and fetches have only been added or settled. */
  ghost predicate Later(s: State, t: State) {
    && s.now <= t.now && |s.fetches| <= |t.fetches|
    && forall f :: 0 <= f < |s.fetches| ==>
         && t.fetches[f].key == s.fetches[f].key && t.fetches[f].ttl == s.fetches[f].ttl
         && (t.fetches[f].progress == s.fetches[f].progress
             || (s.fetches[f].progress.Pending? && t.fetches[f].progress.Resolved? && t.fetches[f].progress.at == t.now)
             || (s.fetches[f].progress.Pending? && t.fetches[f].progress.Rejected? && t.fetches[f].progress.at == t.now))
  }

  lemma ApplyIsLater(s: State, e: Event)
    requires Enabled(s, e)
    ensures Later(s, Apply(s, e))
  {
  }

  lemma BroughtStays(s: State, t: State, f: FetchId, key: Key, v: Value, at: int)
    requires Later(s, t) && Brought(s, f, key, v, at)
    ensures Brought(t, f, key, v, at) && s.fetches[f].ttl == t.fetches[f].ttl
  {
  }

  lemma CallStaysSound(s: State, t: State, call: Call)
    requires Later(s, t) && CallSound(s, call)
    ensures CallSound(t, call)
  {
    match call.status
    case Waiting(f) =>
    case Answered(answer, at) =>
      match answer
      case Fresh(v, f) =>
        var x :| Brought(s, f, call.key, v, x) && at < x + s.fetches[f].ttl * 1000;
        BroughtStays(s, t, f, call.key, v, x);
      case Stale(v, f) =>
        var x :| Brought(s, f, call.key, v, x) && at < x + (s.fetches[f].ttl + call.options.swrTtl) * 1000;
        BroughtStays(s, t, f, call.key, v, x);
      case Fetched(v, f) =>
        var x :| Brought(s, f, call.key, v, x) && call.startedAt <= x <= at;
        BroughtStays(s, t, f, call.key, v, x);
      case Fallback(v, f, g) =>
        var x :| Brought(s, g, call.key, v, x) && x <= at;
        BroughtStays(s, t, g, call.key, v, x);
      case FallbackEnvelope(f, g) =>
        var x :| Brought(s, g, call.key, Undefined, x) && x <= at;
        BroughtStays(s, t, g, call.key, Undefined, x);
      case _ =>
  }

  lemma InFlightStep(s: State, e: Event)
    requires InFlightExact(s) && Enabled(s, e)
    ensures InFlightExact(Apply(s, e))
  {
    match e
    case Begin(c, key, o) => EnsureKeepsExact(s, key, o);
    case Resolve(f, v) =>
      var stored := s.(cache := Apply(s, e).cache);
      assert forall g: FetchId :: IsPending(stored, g) <==> IsPending(s, g);
      SettleKeepsExact(stored, f, Resolved(v, s.now));
    case Reject(f) => SettleKeepsExact(s, f, Rejected(s.now));
    case Tick(_) =>
      assert forall f: FetchId :: IsPending(Apply(s, e), f) <==> IsPending(s, f);
    case Deliver(_) =>
      assert forall f: FetchId :: IsPending(Apply(s, e), f) <==> IsPending(s, f);
    case Evict(_) =>
      assert forall f: FetchId :: IsPending(Apply(s, e), f) <==> IsPending(s, f);
  }

  lemma EnsureKeepsExact(s: State, key: Key, o: Options)
    requires InFlightExact(s)
    ensures InFlightExact(EnsureFetch(s, key, o)) && key in EnsureFetch(s, key, o).inFlight
    ensures forall c, status :: InFlightExact(Enter(EnsureFetch(s, key, o), c, key, o, status))
    ensures forall c, status :: InFlightExact(Enter(s, c, key, o, status))
  {
    var t := EnsureFetch(s, key, o);
    forall f: FetchId | IsPending(t, f) ensures t.fetches[f].key in t.inFlight && t.inFlight[t.fetches[f].key] == f {
      assert f < |s.fetches| ==> IsPending(s, f);
    }
    forall k | k in t.inFlight ensures IsPending(t, t.inFlight[k]) && t.fetches[t.inFlight[k]].key == k {
      assert k in s.inFlight ==> IsPending(s, s.inFlight[k]);
    }
    forall c, status ensures InFlightExact(Enter(t, c, key, o, status)) {
      assert forall f: FetchId :: IsPending(Enter(t, c, key, o, status), f) <==> IsPending(t, f);
    }
    forall c, status ensures InFlightExact(Enter(s, c, key, o, status)) {
      assert forall f: FetchId :: IsPending(Enter(s, c, key, o, status), f) <==> IsPending(s, f);
    }
  }

  lemma SettleKeepsExact(s: State, f: FetchId, p: Progress)
    requires InFlightExact(s)
    requires IsPending(s, f) && !p.Pending?
    ensures InFlightExact(Settle(s, f, p))
  {
    var t := Settle(s, f, p);
    forall g: FetchId | IsPending(t, g) ensures t.fetches[g].key in t.inFlight && t.inFlight[t.fetches[g].key] == g {
      assert IsPending(s, g);
    }
    forall k | k in t.inFlight ensures IsPending(t, t.inFlight[k]) && t.fetches[t.inFlight[k]].key == k {
      assert IsPending(s, s.inFlight[k]);
    }
  }

  lemma StoreStep(s: State, e: Event)
    requires StoreSound(s) && Enabled(s, e)
    ensures StoreSound(Apply(s, e))
  {
    var t := Apply(s, e);
    ApplyIsLater(s, e);
    forall k | k in t.cache && t.cache[k].Envelope?
      ensures Brought(t, t.cache[k].source, k, t.cache[k].data, StoredAt(t, t.cache[k]))
    {
      if k in s.cache && t.cache[k] == s.cache[k] {
        BroughtStays(s, t, s.cache[k].source, k, s.cache[k].data, StoredAt(s, s.cache[k]));
      }
    }
  }

  /** An answer out of the store keeps its promise in the state it is given in. */
  lemma StoredAnswerSound(s: State, key: Key, o: Options)
    requires StoreSound(s) && key in s.cache && s.cache[key].Envelope? && !o.revalidate
    ensures var e := s.cache[key];
      && (IsFresh(s, key) ==> AnswerSound(s, Call(key, o, s.now, Waiting(0)), Fresh(e.data, e.source), s.now))
      && (IsServable(s, key, o) ==> AnswerSound(s, Call(key, o, s.now, Waiting(0)), Stale(e.data, e.source), s.now))
  {
    var e := s.cache[key];
    assert Brought(s, e.source, key, e.data, StoredAt(s, e));
  }

  lemma AnswerStaysSound(s: State, t: State, call: Call, answer: Answer, at: int)
    requires Later(s, t) && at <= s.now && AnswerSound(s, call, answer, at)
    ensures CallSound(t, call.(status := Answered(answer, at)))
  {
    CallStaysSound(s, t, call.(status := Answered(answer, at)));
  }

  lemma BegunAnswerSound(s: State, c: CallId, key: Key, o: Options)
    requires StoreSound(s) && Enabled(s, Begin(c, key, o)) && Apply(s, Begin(c, key, o)).calls[c].status.Answered?
    ensures var t := Apply(s, Begin(c, key, o)); CallSound(t, t.calls[c])
  {
    var t := Apply(s, Begin(c, key, o));
    ApplyIsLater(s, Begin(c, key, o));
    if key in s.cache && s.cache[key].Envelope? {
      StoredAnswerSound(s, key, o);
    }
    AnswerStaysSound(s, t, Call(key, o, s.now, Waiting(0)), t.calls[c].status.answer, s.now);
  }

  lemma BegunWaitSound(s: State, c: CallId, key: Key, o: Options)
    requires InFlightExact(s) && Enabled(s, Begin(c, key, o)) && Apply(s, Begin(c, key, o)).calls[c].status.Waiting?
    ensures var t := Apply(s, Begin(c, key, o)); CallSound(t, t.calls[c])
  {
    if key in s.inFlight {
      assert IsPending(s, s.inFlight[key]);
    }
  }

  lemma BegunCallSound(s: State, c: CallId, key: Key, o: Options)
    requires InFlightExact(s) && StoreSound(s) && Enabled(s, Begin(c, key, o))
    ensures var t := Apply(s, Begin(c, key, o)); CallSound(t, t.calls[c])
  {
    if Apply(s, Begin(c, key, o)).calls[c].status.Answered? {
      BegunAnswerSound(s, c, key, o);
    } else {
      BegunWaitSound(s, c, key, o);
    }
  }

  lemma DeliveredCallSound(s: State, c: CallId)
    requires Enabled(s, Deliver(c)) && CallSound(s, s.calls[c]) && StoreSound(s)
    ensures var t := Apply(s, Deliver(c)); CallSound(t, t.calls[c])
  {
    var t := Apply(s, Deliver(c));
    var call := s.calls[c];
    var f := call.status.fetch;
    if s.fetches[f].progress.Resolved? {
      assert Brought(t, f, call.key, s.fetches[f].progress.value, s.fetches[f].progress.at);
    } else if call.key in s.cache && s.cache[call.key].Envelope? {
      var e := s.cache[call.key];
      assert Brought(t, e.source, call.key, e.data, StoredAt(s, e));
    }
  }

  lemma OtherCallsStay(s: State, e: Event, c: CallId)
    requires CallsSound(s) && Enabled(s, e) && c in Apply(s, e).calls
    requires c in s.calls && Apply(s, e).calls[c] == s.calls[c]
    ensures CallSound(Apply(s, e), Apply(s, e).calls[c])
  {
    ApplyIsLater(s, e);
    CallStaysSound(s, Apply(s, e), s.calls[c]);
  }

  /** An event enters or ends one call at most. */
  lemma TouchedCall(s: State, e: Event, c: CallId)
    requires Enabled(s, e) && c in Apply(s, e).calls
    ensures (c in s.calls && Apply(s, e).calls[c] == s.calls[c])
      || (e.Begin? && e.call == c) || (e.Deliver? && e.call == c)
  {
  }

  lemma CallsStep(s: State, e: Event)
    requires InFlightExact(s) && StoreSound(s) && CallsSound(s) && Enabled(s, e)
    ensures CallsSound(Apply(s, e))
  {
    var t := Apply(s, e);
    forall c | c in t.calls ensures CallSound(t, t.calls[c]) {
      TouchedCall(s, e, c);
      if c in s.calls && t.calls[c] == s.calls[c] {
        OtherCallsStay(s, e, c);
      } else if e.Begin? {
        BegunCallSound(s, c, e.key, e.options);
      } else {
        DeliveredCallSound(s, c);
      }
    }
  }

  lemma SoundStep(s: State, e: Event)
    requires Sound(s) && Enabled(s, e)
    ensures Sound(Apply(s, e))
  {
    InFlightStep(s, e);
    StoreStep(s, e);
    CallsStep(s, e);
  }

  lemma {:induction false} SoundRun(s: State, es: seq<Event>)
    requires Sound(s) && Interleaving(s, es)
    ensures Sound(Run(s, es))
    decreases |es|
  {
    if es != [] {
      SoundStep(s, es[0]);
      SoundRun(Apply(s, es[0]), es[1..]);
    }
  }

  // ---------------------------------------------------------------- entries of an older version

  /** The store held this old-style entry from the start. */
  ghost predicate WasStored(store: map<Key, Entry>, key: Key, v: Value) {
    key in store && store[key] == Legacy(v)
  }

  ghost predicate OldStyleAnswer(store: map<Key, Entry>, call: Call) {
    call.status.Answered? && (call.status.answer.LegacyHit? || call.status.answer.FallbackLegacy?) ==>
      WasStored(store, call.key, call.status.answer.value)
  }

  /** Nothing writes such an entry, and what is answered out of one is what it holds. */
  ghost predicate OldStyleKept(store: map<Key, Entry>, s: State) {
    && (forall k :: k in s.cache && s.cache[k].Legacy? ==> k in store && store[k] == s.cache[k])
    && (forall c :: c in s.calls ==> OldStyleAnswer(store, s.calls[c]))
  }

  lemma OldStyleStep(store: map<Key, Entry>, s: State, e: Event)
    requires OldStyleKept(store, s) && Enabled(s, e)
    ensures OldStyleKept(store, Apply(s, e))
  {
    var t := Apply(s, e);
    forall c | c in t.calls ensures OldStyleAnswer(store, t.calls[c]) {
      TouchedCall(s, e, c);
      if c in s.calls {
        assert OldStyleAnswer(store, s.calls[c]);
      }
    }
  }

  lemma {:induction false} OldStyleRun(store: map<Key, Entry>, s: State, es: seq<Event>)
    requires OldStyleKept(store, s) && Interleaving(s, es)
    ensures OldStyleKept(store, Run(s, es))
    decreases |es|
  {
    if es != [] {
      OldStyleStep(store, s, es[0]);
      OldStyleRun(store, Apply(s, es[0]), es[1..]);
    }
  }

  // ---------------------------------------------------------------- the promises

  /** In every interleaving: at most one running fetch per key, and `inFlight` names a key exactly while one runs. */
  lemma OneFetchPerKey(s: State, es: seq<Event>, f: FetchId, g: FetchId)
    requires Start(s) && Interleaving(s, es)
    ensures var t := Run(s, es);
      && (forall k :: k in t.inFlight <==> exists h: FetchId :: IsPending(t, h) && t.fetches[h].key == k)
      && (IsPending(t, f) && IsPending(t, g) && t.fetches[f].key == t.fetches[g].key ==> f == g)
  {
    SoundRun(s, es);
  }

  /** The stale window a call allows, in seconds. */
  function Window(o: Options): nat {
    if o.swrTtl > 0 then o.swrTtl else 0
  }

  /** The value a caller is given. */
  function Given(a: Answer): Option<Value> {
    match a
    case Failed(_) => None
    case FallbackEnvelope(_, _) => None
    case _ => Some(a.value)
  }

  /**
   * In every interleaving, a value given to a caller was brought back during the call, or was brought back less than
   * ttl + swrTtl before it was given, or is the old-style entry the store held for the key from the start, or replaces
   * the error of a fetch that failed during the call: then it was brought back at some earlier time, or is that
   * old-style entry. The envelope itself is given only in place of such an error, and only for a fetch that had
   * brought back undefined.
   */
  lemma AnswersAreRecent(s: State, es: seq<Event>, c: CallId)
    requires Start(s) && Interleaving(s, es) && c in Run(s, es).calls && Run(s, es).calls[c].status.Answered?
    ensures var t := Run(s, es);
      var call := t.calls[c];
      var Answered(answer, at) := call.status;
      Given(answer).Some? ==>
        || (answer.LegacyHit? && !call.options.revalidate && WasStored(s.cache, call.key, answer.value))
        || (exists f: FetchId, x :: Brought(t, f, call.key, Given(answer).value, x) && call.startedAt <= x <= at)
        || (exists f: FetchId, x :: Brought(t, f, call.key, Given(answer).value, x) && !call.options.revalidate
              && at < x + (t.fetches[f].ttl + Window(call.options)) * 1000)
        || (answer.FallbackLegacy? && FailedSince(t, answer.fetch, call.key, call.startedAt)
              && WasStored(s.cache, call.key, answer.value))
        || (answer.Fallback? && FailedSince(t, answer.fetch, call.key, call.startedAt)
              && exists x :: Brought(t, answer.source, call.key, answer.value, x) && x <= at)
    ensures var t := Run(s, es);
      var call := t.calls[c];
      var Answered(answer, at) := call.status;
      answer.FallbackEnvelope? ==>
        && FailedSince(t, answer.fetch, call.key, call.startedAt)
        && exists x :: Brought(t, answer.source, call.key, Undefined, x) && x <= at
  {
    SoundRun(s, es);
    OldStyleRun(s.cache, s, es);
    var t := Run(s, es);
    assert CallSound(t, t.calls[c]) && OldStyleAnswer(s.cache, t.calls[c]);
  }

  /** How the stretch of a call up to its first await can end. */
  ghost predicate AnsweredAtOnce(t: State, c: CallId, v: Value) {
    c in t.calls && t.calls[c].status.Answered? && t.calls[c].status.at == t.now && Given(t.calls[c].status.answer) == Some(v)
  }

  ghost predicate WaitsForFetch(t: State, c: CallId, key: Key) {
    && c in t.calls && t.calls[c].status.Waiting? && IsPending(t, t.calls[c].status.fetch)
    && t.fetches[t.calls[c].status.fetch].key == key && key in t.inFlight && t.inFlight[key] == t.calls[c].status.fetch
  }

  /** The store has something for the key that need not be fetched first: an old-style entry, or an envelope in its windows. */
  ghost predicate HasAnswer(s: State, key: Key, o: Options) {
    && key in s.cache
    && match s.cache[key]
       case Legacy(_) => true
       case Envelope(_, expiresAt, _, _) => s.now < expiresAt || s.now < expiresAt + o.swrTtl * 1000
  }

  function StoredValue(e: Entry): Value {
    match e
    case Legacy(value) => value
    case Envelope(data, _, _, _) => data
  }

  /**
   * In every interleaving, an unforced call that finds an entry it may use is given exactly what that entry holds, at
   * once; any other call waits for the one running fetch of its key.
   */
  lemma CallBeginsExactly(s: State, es: seq<Event>, c: CallId, key: Key, o: Options)
    requires Start(s) && Interleaving(s, es) && c !in Run(s, es).calls
    ensures var t := Run(s, es);
      var u := Apply(t, Begin(c, key, o));
      if !o.revalidate && HasAnswer(t, key, o) then AnsweredAtOnce(u, c, StoredValue(t.cache[key])) else WaitsForFetch(u, c, key)
  {
    SoundRun(s, es);
    BegunWaits(Run(s, es), c, key, o);
  }

  /** Once the store has dropped a key's entry, a call for the key waits for a fetch. */
  lemma DroppedIsFetchedAgain(s: State, es: seq<Event>, c: CallId, key: Key, o: Options)
    requires Start(s) && Interleaving(s, es) && c !in Run(s, es).calls
    ensures var t := Apply(Run(s, es), Evict(key));
      && (forall k :: k != key ==> (k in t.cache <==> k in Run(s, es).cache) && (k in t.cache ==> t.cache[k] == Run(s, es).cache[k]))
      && WaitsForFetch(Apply(t, Begin(c, key, o)), c, key)
  {
    SoundRun(s, es);
    SoundStep(Run(s, es), Evict(key));
    BegunWaits(Apply(Run(s, es), Evict(key)), c, key, o);
  }

  /** No event of the run drops the key's entry or puts another value in its place. */
  ghost predicate LeavesEntry(s: State, es: seq<Event>, key: Key)
    requires Interleaving(s, es)
    decreases |es|
  {
    es != [] ==>
      && es[0] != Evict(key)
      && (es[0].Resolve? ==> s.fetches[es[0].fetch].key != key)
      && LeavesEntry(Apply(s, es[0]), es[1..], key)
  }

  lemma {:induction false} EntryStays(s: State, es: seq<Event>, key: Key)
    requires Interleaving(s, es) && LeavesEntry(s, es, key) && key in s.cache
    ensures key in Run(s, es).cache && Run(s, es).cache[key] == s.cache[key]
    decreases |es|
  {
    if es != [] {
      EntryStays(Apply(s, es[0]), es[1..], key);
    }
  }

  /**
   * Once a fetch has brought back a value, and until the key's entry is dropped or replaced, every unforced call is
   * given that value at once: without any fetch within the lifetime the fetch was started with, and with a fetch for
   * the key under way in the stale window after it.
   */
  lemma FetchedValueIsServed(s: State, es: seq<Event>, f: FetchId, v: Value, later: seq<Event>, c: CallId, o: Options)
    requires Start(s) && Interleaving(s, es) && IsPending(Run(s, es), f)
    requires var m := Apply(Run(s, es), Resolve(f, v));
      Interleaving(m, later) && LeavesEntry(m, later, Run(s, es).fetches[f].key) && c !in Run(m, later).calls && !o.revalidate
    ensures var r := Run(s, es);
      var t := Run(Apply(r, Resolve(f, v)), later);
      var key, expiry := r.fetches[f].key, r.now + r.fetches[f].ttl * 1000;
      var u := Apply(t, Begin(c, key, o));
      && (t.now < expiry ==> AnsweredAtOnce(u, c, v) && u.fetches == t.fetches)
      && (expiry <= t.now < expiry + o.swrTtl * 1000 ==> AnsweredAtOnce(u, c, v) && key in u.inFlight)
      && (expiry <= t.now && expiry + o.swrTtl * 1000 <= t.now ==> WaitsForFetch(u, c, key))
  {
    var r := Run(s, es);
    var key, m := r.fetches[f].key, Apply(r, Resolve(f, v));
    EntryStays(m, later, key);
    SoundRun(s, es);
    SoundStep(r, Resolve(f, v));
    SoundRun(m, later);
    BegunWithEnvelope(Run(m, later), c, key, o);
  }

  lemma BegunWithEnvelope(t: State, c: CallId, key: Key, o: Options)
    requires Sound(t) && c !in t.calls && !o.revalidate && key in t.cache && t.cache[key].Envelope?
    ensures var u := Apply(t, Begin(c, key, o));
      var v, expiry := t.cache[key].data, t.cache[key].expiresAt;
      && (t.now < expiry ==> AnsweredAtOnce(u, c, v) && u.fetches == t.fetches)
      && (expiry <= t.now < expiry + o.swrTtl * 1000 ==> AnsweredAtOnce(u, c, v) && key in u.inFlight)
      && (expiry <= t.now && expiry + o.swrTtl * 1000 <= t.now ==> WaitsForFetch(u, c, key))
  {
    BegunWaits(t, c, key, o);
  }

  lemma BegunWaits(t: State, c: CallId, key: Key, o: Options)
    requires Sound(t) && c !in t.calls
    ensures var u := Apply(t, Begin(c, key, o)); u.calls[c].status.Waiting? ==> WaitsForFetch(u, c, key)
  {
    SoundStep(t, Begin(c, key, o));
    if key in t.inFlight {
      assert IsPending(t, t.inFlight[key]);
    }
  }

  // ---------------------------------------------------------------- answers in place of an error

  /** A waiting call whose fetch has failed. */
  predicate FailsNow(s: State, c: CallId) {
    Enabled(s, Deliver(c)) && s.fetches[s.calls[c].status.fetch].progress.Rejected?
  }

  function AnswerTo(s: State, c: CallId): Answer
    requires Enabled(s, Deliver(c))
  {
    Apply(s, Deliver(c)).calls[c].status.answer
  }

  /** The four ways a failed fetch can end, and what in the store decides between them. */
  lemma FailedFetchAnswersExactly(s: State, c: CallId)
    requires FailsNow(s, c)
    ensures var key, answer := s.calls[c].key, AnswerTo(s, c);
      && (answer.Failed? <==> key !in s.cache)
      && (answer.FallbackEnvelope? <==> key in s.cache && s.cache[key].Envelope? && s.cache[key].data == Undefined)
      && (answer.FallbackLegacy? <==> key in s.cache && s.cache[key].Legacy?)
      && (answer.Fallback? <==> key in s.cache && s.cache[key].Envelope? && s.cache[key].data != Undefined)
      && (answer.FallbackLegacy? ==> answer.value == s.cache[key].value)
      && (answer.Fallback? ==> answer.value == s.cache[key].data && answer.source == s.cache[key].source)
  {
  }

  /** The age bound of the ordinary answers, for the envelope a key holds: from the fetch that wrote it to now. */
  ghost predicate WithinWindow(s: State, e: Entry, o: Options)
    requires e.Envelope? && e.source < |s.fetches|
  {
    s.now < StoredAt(s, e) + (s.fetches[e.source].ttl + o.swrTtl) * 1000
  }

  /**
   * In every interleaving, what replaces an error, be it the data of an envelope or the envelope itself, was brought
   * back by the fetch that wrote it, and keeps the age bound iff the caller could have been served it stale.
   */
  lemma FallbackIsRecentExactly(s: State, es: seq<Event>, c: CallId)
    requires Start(s) && Interleaving(s, es) && FailsNow(Run(s, es), c)
    requires var t := Run(s, es); t.calls[c].key in t.cache && t.cache[t.calls[c].key].Envelope?
    ensures var t := Run(s, es);
      var key, o := t.calls[c].key, t.calls[c].options;
      var e := t.cache[key];
      && Brought(t, e.source, key, e.data, StoredAt(t, e))
      && (if e.data == Undefined then AnswerTo(t, c).FallbackEnvelope? else AnswerTo(t, c).Fallback? && AnswerTo(t, c).value == e.data)
      && (WithinWindow(t, e, o) <==> IsServable(t, key, o))
  {
    SoundRun(s, es);
    var t := Run(s, es);
    FailedFetchAnswersExactly(t, c);
    var key := t.calls[c].key;
    assert Brought(t, t.cache[key].source, key, t.cache[key].data, StoredAt(t, t.cache[key]));
  }

  /** The store drops an entry 300 s after it was written; the routes' own settings, 300 s and 120 s, reach past that. */
  const STORE_LIFE_MS := 300 * 1000

  /** So no value older than the bound replaces an error, as long as the settings reach past the store's lifetime. */
  lemma StoreLifeKeepsBound(s: State, es: seq<Event>, c: CallId)
    requires Start(s) && Interleaving(s, es) && FailsNow(Run(s, es), c)
    requires var t := Run(s, es); t.calls[c].key in t.cache && t.cache[t.calls[c].key].Envelope?
    requires var t := Run(s, es); t.now <= StoredAt(t, t.cache[t.calls[c].key]) + 300_000
    ensures var t := Run(s, es);
      var key, o := t.calls[c].key, t.calls[c].options;
      var e := t.cache[key];
      e.source < |t.fetches| && ((t.fetches[e.source].ttl + o.swrTtl) * 1000 > 300_000 ==> WithinWindow(t, e, o) && IsServable(t, key, o))
  {
    FallbackIsRecentExactly(s, es, c);
  }

  // The routes' own settings: with a lifetime no shorter than the store's, the stale window goes unused.

  /** The store has dropped what it should have. */
  ghost predicate Prompt(s: State) {
    forall k :: k in s.cache && s.cache[k].Envelope? ==> s.now <= StoredAt(s, s.cache[k]) + 300_000
  }

  predicate LongLived(e: Event) {
    e.Begin? ==> e.options.ttl >= 300
  }

  ghost predicate PromptRun(s: State, es: seq<Event>)
    requires Interleaving(s, es)
    decreases |es|
  {
    Prompt(s) && (es != [] ==> LongLived(es[0]) && PromptRun(Apply(s, es[0]), es[1..]))
  }

  ghost predicate LongFetches(s: State) {
    forall f: FetchId :: f < |s.fetches| ==> s.fetches[f].ttl * 1000 >= STORE_LIFE_MS
  }

  /** A stale answer was given in the very millisecond in which the store drops the entry. */
  ghost predicate AtTheLast(s: State, call: Call) {
    call.status.Answered? && call.status.answer.Stale? ==>
      && call.status.answer.source < |s.fetches|
      && s.fetches[call.status.answer.source].progress == Resolved(call.status.answer.value, call.status.at - STORE_LIFE_MS)
  }

  ghost predicate AllAtTheLast(s: State) {
    forall c :: c in s.calls ==> AtTheLast(s, s.calls[c])
  }

  lemma BegunAtTheLast(s: State, c: CallId, key: Key, o: Options)
    requires StoreSound(s) && Prompt(s) && LongFetches(s) && Enabled(s, Begin(c, key, o))
    ensures var t := Apply(s, Begin(c, key, o)); AtTheLast(t, t.calls[c])
  {
    if key in s.cache && s.cache[key].Envelope? {
      assert Brought(s, s.cache[key].source, key, s.cache[key].data, StoredAt(s, s.cache[key]));
    }
  }

  lemma AtTheLastStep(s: State, e: Event)
    requires Sound(s) && Prompt(s) && LongFetches(s) && AllAtTheLast(s) && Enabled(s, e) && LongLived(e)
    ensures LongFetches(Apply(s, e)) && AllAtTheLast(Apply(s, e))
  {
    var t := Apply(s, e);
    ApplyIsLater(s, e);
    forall c | c in t.calls ensures AtTheLast(t, t.calls[c]) {
      AtTheLastCall(s, e, c);
    }
  }

  lemma AtTheLastCall(s: State, e: Event, c: CallId)
    requires StoreSound(s) && Prompt(s) && LongFetches(s) && AllAtTheLast(s) && Enabled(s, e) && c in Apply(s, e).calls
    ensures AtTheLast(Apply(s, e), Apply(s, e).calls[c])
  {
    ApplyIsLater(s, e);
    TouchedCall(s, e, c);
    if e.Begin? && e.call == c {
      BegunAtTheLast(s, c, e.key, e.options);
    } else if c in s.calls {
      assert AtTheLast(s, s.calls[c]);
    }
  }

  lemma {:induction false} AtTheLastRun(s: State, es: seq<Event>)
    requires Sound(s) && LongFetches(s) && AllAtTheLast(s) && Interleaving(s, es) && PromptRun(s, es)
    ensures AllAtTheLast(Run(s, es))
    decreases |es|
  {
    if es != [] {
      AtTheLastStep(s, es[0]);
      SoundStep(s, es[0]);
      AtTheLastRun(Apply(s, es[0]), es[1..]);
    }
  }

  /**
   * With lifetimes of at least 300 s, which is what every route asks for, no stale answer is given in any run, but for
   * the single millisecond in which an entry reaches the end of both its lifetimes.
   */
  lemma DefaultsAreNeverStale(s: State, es: seq<Event>, c: CallId)
    requires Start(s) && Interleaving(s, es) && PromptRun(s, es) && c in Run(s, es).calls
    ensures AtTheLast(Run(s, es), Run(s, es).calls[c])
  {
    AtTheLastRun(s, es);
  }

  const EMPTY_STORE := State(0, map[], map[], [], map[])
  const ONE_MINUTE := Options(60, 30, false)

  /** One fetch succeeds, 200 s pass, well within the store's lifetime, and the next fetch for the key fails. */
  function LateFailure(v: Value): seq<Event> {
    [Begin(0, "k", ONE_MINUTE), Resolve(0, v), Tick(200000), Begin(1, "k", ONE_MINUTE), Reject(1), Deliver(1)]
  }

  lemma Unroll(s: State, es: seq<Event>)
    requires es != [] && Enabled(s, es[0]) && Interleaving(Apply(s, es[0]), es[1..])
    ensures Interleaving(s, es) && Run(s, es) == Run(Apply(s, es[0]), es[1..])
  {
  }

  /** Where the failing fetch starts: the envelope is past its stale window. */
  function PastWindow(v: Value): State {
    State(200000, map["k" := Envelope(v, 60000, 30, 0)], map[], [Fetch("k", 60, 30, Resolved(v, 0))],
      map[0 := Call("k", ONE_MINUTE, 0, Waiting(0))])
  }

  lemma SecondFetchFails(v: Value)
    ensures var es := LateFailure(v)[3..];
      && Interleaving(PastWindow(v), es)
      && 1 in Run(PastWindow(v), es).calls
      && Run(PastWindow(v), es).calls[1].status == Answered(if v == Undefined then FallbackEnvelope(1, 0) else Fallback(v, 1, 0), 200000)
  {
    var es := LateFailure(v)[3..];
    var s1 := Apply(PastWindow(v), es[0]);
    var s2 := Apply(s1, es[1]);
    Unroll(s2, es[2..]);
    Unroll(s1, es[1..]);
    Unroll(PastWindow(v), es);
  }

  lemma LateFailureRuns(v: Value)
    ensures Interleaving(EMPTY_STORE, LateFailure(v))
    ensures var t := Run(EMPTY_STORE, LateFailure(v));
      1 in t.calls && t.calls[1].status == Answered(if v == Undefined then FallbackEnvelope(1, 0) else Fallback(v, 1, 0), 200000)
  {
    var es := LateFailure(v);
    var s1 := Apply(EMPTY_STORE, es[0]);
    var s2 := Apply(s1, es[1]);
    assert s2.inFlight == map[];
    assert Apply(s2, es[2]) == PastWindow(v);
    SecondFetchFails(v);
    Unroll(s2, es[2..]);
    Unroll(s1, es[1..]);
    Unroll(EMPTY_STORE, es);
  }

  /** A value 200 s old in place of an error, for a lifetime of 60 s and a stale window of 30 s. */
  lemma OldValueReplacesError()
    ensures Start(EMPTY_STORE) && Interleaving(EMPTY_STORE, LateFailure(Payload(7)))
    ensures var t := Run(EMPTY_STORE, LateFailure(Payload(7)));
      1 in t.calls && t.calls[1].status == Answered(Fallback(Payload(7), 1, 0), 200000)
  {
    LateFailureRuns(Payload(7));
  }

  /** A fetch that brought back undefined: the next error is answered with the store's own envelope. */
  lemma EnvelopeReplacesError()
    ensures Start(EMPTY_STORE) && Interleaving(EMPTY_STORE, LateFailure(Undefined))
    ensures var t := Run(EMPTY_STORE, LateFailure(Undefined));
      1 in t.calls && t.calls[1].status == Answered(FallbackEnvelope(1, 0), 200000)
  {
    LateFailureRuns(Undefined);
  }

  // ---------------------------------------------------------------- fetches and those who wait for them

  /**
   * A call starts a fetch iff none is in flight for the key and it is forced or finds neither a fresh nor an old-style
   * entry; it starts one, for its key and with the lifetimes it asks for.
   */
  lemma FetchStartsExactly(s: State, c: CallId, key: Key, o: Options)
    requires Enabled(s, Begin(c, key, o))
    ensures var t := Apply(s, Begin(c, key, o));
      |t.fetches| > |s.fetches| <==>
        key !in s.inFlight && (o.revalidate || !(IsFresh(s, key) || (key in s.cache && s.cache[key].Legacy?)))
    ensures var t := Apply(s, Begin(c, key, o));
      t.fetches == s.fetches || (t.fetches == s.fetches + [Fetch(key, o.ttl, o.swrTtl, Pending)] && t.inFlight == s.inFlight[key := |s.fetches|])
  {
  }

  /** A call that waited on fetch f ends the way f ended. */
  ghost predicate EndsLike(s: State, c: CallId, f: FetchId) {
    && c in s.calls && f < |s.fetches|
    && match s.calls[c].status
       case Waiting(g) => g == f
       case Answered(answer, _) =>
         match s.fetches[f].progress
         case Pending => false
         case Resolved(v, _) => answer == Fetched(v, f)
         case Rejected(_) =>
           answer == Failed(f) || (answer.FallbackEnvelope? && answer.fetch == f) || ((answer.Fallback? || answer.FallbackLegacy?) && answer.fetch == f)
  }

  lemma {:induction false} EndsLikeRun(s: State, es: seq<Event>, c: CallId, f: FetchId)
    requires Interleaving(s, es) && EndsLike(s, c, f)
    ensures EndsLike(Run(s, es), c, f)
    decreases |es|
  {
    if es != [] {
      ApplyIsLater(s, es[0]);
      assert EndsLike(Apply(s, es[0]), c, f);
      EndsLikeRun(Apply(s, es[0]), es[1..], c, f);
    }
  }

  /** However a run goes on, two calls waiting on one fetch that succeeds are both given its value once answered. */
  lemma JoinersShareTheValue(s: State, es: seq<Event>, c: CallId, d: CallId, f: FetchId)
    requires Interleaving(s, es) && f < |s.fetches|
    requires c in s.calls && s.calls[c].status == Waiting(f)
    requires d in s.calls && s.calls[d].status == Waiting(f)
    ensures var t := Run(s, es);
      c in t.calls && d in t.calls && f < |t.fetches| &&
      (t.calls[c].status.Answered? && t.calls[d].status.Answered? && t.fetches[f].progress.Resolved? ==>
        t.calls[c].status.answer == t.calls[d].status.answer == Fetched(t.fetches[f].progress.value, f))
  {
    EndsLikeRun(s, es, c, f);
    EndsLikeRun(s, es, d, f);
  }

  // ---------------------------------------------------------------- the module's variables

  class ContractCache {
    var now: int
    var cache: map<Key, Entry>
    var inFlight: map<Key, FetchId>
    var fetches: seq<Fetch>
    var calls: map<CallId, Call>

    function Snapshot(): State
      reads this
    {
      State(now, cache, inFlight, fetches, calls)
    }

    constructor ()
      ensures Start(Snapshot())
    {
      now, cache, inFlight, fetches, calls := 0, map[], map[], [], map[];
    }

    method StartFetch(key: Key, o: Options) returns (f: FetchId)
      requires key !in inFlight
      modifies this
      ensures f == |old(fetches)|
      ensures Snapshot() == EnsureFetch(old(Snapshot()), key, o)
    {
      f := |fetches|;
      fetches := fetches + [Fetch(key, o.ttl, o.swrTtl, Pending)];
      inFlight := inFlight[key := f];
    }

    /** getCachedData up to its first await. */
    method GetCachedData(c: CallId, key: Key, o: Options)
      requires c !in calls
      modifies this
      ensures Snapshot() == Apply(old(Snapshot()), Begin(c, key, o))
    {
      if key in cache && cache[key].Envelope? {
        var cached := cache[key];
        if !o.revalidate && now < cached.expiresAt {
          calls := calls[c := Call(key, o, now, Answered(Fresh(cached.data, cached.source), now))];
          return;
        }
        if now < cached.expiresAt + o.swrTtl * 1000 {
          if key !in inFlight {
            var _ := StartFetch(key, o);
          }
          if !o.revalidate {
            calls := calls[c := Call(key, o, now, Answered(Stale(cached.data, cached.source), now))];
            return;
          }
        }
      } else if !o.revalidate && key in cache {
        calls := calls[c := Call(key, o, now, Answered(LegacyHit(cache[key].value), now))];
        return;
      }
      if key in inFlight {
        calls := calls[c := Call(key, o, now, Waiting(inFlight[key]))];
        return;
      }
      var f := StartFetch(key, o);
      calls := calls[c := Call(key, o, now, Waiting(f))];
    }

    /** The rest of a fetch once retryOperation has a value. */
    method FetchSucceeds(f: FetchId, value: Value)
      requires IsPending(Snapshot(), f)
      modifies this
      ensures Snapshot() == Apply(old(Snapshot()), Resolve(f, value))
    {
      var fetch := fetches[f];
      cache := cache[fetch.key := Envelope(value, now + fetch.ttl * 1000, fetch.swrTtl, f)];
      fetches := fetches[f := fetch.(progress := Resolved(value, now))];
      inFlight := inFlight - {fetch.key};
    }

    method FetchFails(f: FetchId)
      requires IsPending(Snapshot(), f)
      modifies this
      ensures Snapshot() == Apply(old(Snapshot()), Reject(f))
    {
      fetches := fetches[f := fetches[f].(progress := Rejected(now))];
      inFlight := inFlight - {fetches[f].key};
    }

    /** The rest of a call once the fetch it awaits has settled, catch block included. */
    method CallContinues(c: CallId)
      requires Enabled(Snapshot(), Deliver(c))
      modifies this
      ensures Snapshot() == Apply(old(Snapshot()), Deliver(c))
    {
      var call := calls[c];
      var f := call.status.fetch;
      var answer: Answer;
      if fetches[f].progress.Resolved? {
        answer := Fetched(fetches[f].progress.value, f);
      } else if call.key !in cache {
        answer := Failed(f);
      } else if cache[call.key].Envelope? && cache[call.key].data != Undefined {
        answer := Fallback(cache[call.key].data, f, cache[call.key].source);
      } else if cache[call.key].Legacy? {
        answer := FallbackLegacy(cache[call.key].value, f);
      } else {
        answer := FallbackEnvelope(f, cache[call.key].source);
      }
      calls := calls[c := call.(status := Answered(answer, now))];
    }
  }
}
