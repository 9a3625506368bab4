/**
 * Serving a request from the selected provider or a fallback, under quota cooldowns and the spending lock. Providers
 * are known by their registry names. Each provider call (retries included) is one oracle reply that also lets time
 * pass; the log of calls is kept for the claims.
 */
module ProviderFallback {
  import opened Prelude

  type Name = string

  const COOLDOWN_MS := 30 * 60 * 1000

  datatype Reply = Answer(text: string, elapsed: nat) | Failure(quota: bool, elapsed: nat)

  /** A logged call: who, which operation, what came of it, and when it ended. */
  datatype Operation = Generate | GenerateAux | Capability
  datatype Call = Call(name: Name, operation: Operation, reply: Reply, at: int)

  /** The i-th call ever made, to the named provider, gets this reply. */
  type World = (nat, Name) -> Reply

  /** `resets` counts how often all cooldowns were dropped at once; the code keeps no such count. */
  datatype State = State(
    providers: seq<Name>,
    active: Name,
    cooldowns: map<Name, int>,
    now: int,
    blocks: nat,
    log: seq<Call>,
    resets: nat)

  datatype Result = Result(state: State, reply: Option<string>)

  // ---------------------------------------------------------------- cooldowns

  predicate Cooling(s: State, name: Name) {
    name in s.cooldowns && s.now < s.cooldowns[name]
  }

  /** isCoolingDown forgets a cooldown that has run out. */
  function Probed(s: State, name: Name): State {
    if name in s.cooldowns && s.now >= s.cooldowns[name] then s.(cooldowns := s.cooldowns - {name}) else s
  }

  function Marked(s: State, name: Name): State {
    if name in s.cooldowns then s else s.(cooldowns := s.cooldowns[name := s.now + COOLDOWN_MS])
  }

  function Invoked(s: State, name: Name, op: Operation, w: World): State {
    var reply := w(|s.log|, name);
    s.(now := s.now + reply.elapsed, log := s.log + [Call(name, op, reply, s.now + reply.elapsed)])
  }

  /** After a failed call: a quota failure starts a cooldown, any other failure is only logged. */
  function AfterFailure(s: State, name: Name, reply: Reply): State
    requires reply.Failure?
  {
    if reply.quota then Marked(s, name) else s
  }

  // ---------------------------------------------------------------- the fallback chain

  /** providers.every(isCoolingDown), which stops at the first provider that is not. */
  function EveryProbed(s: State, names: seq<Name>): State {
    if names == [] then s
    else if Cooling(s, names[0]) then EveryProbed(s, names[1..])
    else Probed(s, names[0])
  }

  predicate AllCooling(s: State, names: seq<Name>) {
    forall i :: 0 <= i < |names| ==> Cooling(s, names[i])
  }

  /** Where the fallback loop starts: with every provider cooling, all cooldowns are dropped. */
  function Reset(s: State): State {
    var probed := EveryProbed(s, s.providers);
    if AllCooling(s, s.providers) then probed.(cooldowns := map[], resets := s.resets + 1) else probed
  }

  function Fallback(s: State, names: seq<Name>, w: World): Result
    decreases |names|
  {
    if names == [] then Result(s, None)
    else
      var name := names[0];
      if name == s.active then Fallback(s, names[1..], w)
      else if Cooling(s, name) then Fallback(s, names[1..], w)
      else
        var reply := w(|s.log|, name);
        var called := Invoked(Probed(s, name), name, Generate, w);
        match reply
        case Answer(text, _) => Result(called, Some(text))
        case Failure(_, _) => Fallback(AfterFailure(called, name, reply), names[1..], w)
  }

  function TryFallback(s: State, locked: bool, w: World): Result {
    if locked then Result(s.(blocks := s.blocks + 1), None)
    else Fallback(Reset(s), s.providers, w)
  }

  /** Some other registered provider is not cooling. */
  predicate UsableAlternative(s: State, names: seq<Name>) {
    exists i :: 0 <= i < |names| && names[i] != s.active && !Cooling(s, names[i])
  }

  function AlternativeProbed(s: State, names: seq<Name>): State {
    if names == [] then s
    else if names[0] == s.active || Cooling(s, names[0]) then AlternativeProbed(s, names[1..])
    else Probed(s, names[0])
  }

  /**
   * generateResponse. The lock is read up to twice, when a cooling provider might be skipped and when a fallback is
   * about to start; the two readings are parameters.
   */
  function Respond(s: State, lockedAtSkip: bool, lockedAtFallback: bool, w: World): Result {
    if Cooling(s, s.active) && UsableAlternative(s, s.providers) && !lockedAtSkip then
      TryFallback(AlternativeProbed(s, s.providers), lockedAtFallback, w)
    else
      var ready := if Cooling(s, s.active) then AlternativeProbed(s, s.providers) else Probed(s, s.active);
      var reply := w(|s.log|, s.active);
      var called := Invoked(ready, s.active, Generate, w);
      match reply
      case Answer(text, _) => Result(called, Some(text))
      case Failure(_, _) => TryFallback(AfterFailure(called, s.active, reply), lockedAtFallback, w)
  }

  /** generateAux: a cheap model of the selected provider first, when one is set and the provider is not cooling. */
  function RespondAux(s: State, ownModel: bool, auxModel: bool, lockedAtSkip: bool, lockedAtFallback: bool, w: World): Result {
    if ownModel || !auxModel then Respond(s, lockedAtSkip, lockedAtFallback, w)
    else if Cooling(s, s.active) then Respond(s, lockedAtSkip, lockedAtFallback, w)
    else
      var reply := w(|s.log|, s.active);
      var called := Invoked(Probed(s, s.active), s.active, GenerateAux, w);
      match reply
      case Answer(text, _) => Result(called, Some(text))
      case Failure(_, _) => Respond(called, lockedAtSkip, lockedAtFallback, w)
  }

  // ---------------------------------------------------------------- what a run of calls looks like

  /** The calls that led from one state to a later one. */
  function CallsSince(s: State, t: State): seq<Call> {
    if |s.log| <= |t.log| then t.log[|s.log|..] else []
  }

  ghost predicate Continues(s: State, t: State) {
    && s.log <= t.log && s.now <= t.now && t.providers == s.providers && t.active == s.active
  }

  /** Every call but the last failed, and the reply is the last call's answer, or absent if that failed too. */
  ghost predicate FirstSuccess(calls: seq<Call>, reply: Option<string>) {
    && (forall i :: 0 <= i < |calls| - 1 ==> calls[i].reply.Failure?)
    && (reply.Some? ==> calls != [] && calls[|calls| - 1].reply.Answer? && calls[|calls| - 1].reply.text == reply.value)
    && (reply.None? ==> forall i :: 0 <= i < |calls| ==> calls[i].reply.Failure?)
  }

  ghost predicate CalledOnceEach(calls: seq<Call>) {
    forall i, j :: 0 <= i < j < |calls| ==> calls[i].name != calls[j].name
  }

  ghost predicate WasCalled(calls: seq<Call>, name: Name) {
    exists i :: 0 <= i < |calls| && calls[i].name == name
  }

  lemma ProbingIsInvisible(s: State, name: Name, other: Name)
    ensures Cooling(Probed(s, name), other) == Cooling(s, other)
    ensures Probed(s, name) == s.(cooldowns := Probed(s, name).cooldowns)
  {
  }

  lemma {:induction false} EveryIsInvisible(s: State, names: seq<Name>, other: Name)
    ensures Cooling(EveryProbed(s, names), other) == Cooling(s, other)
    ensures EveryProbed(s, names) == s.(cooldowns := EveryProbed(s, names).cooldowns)
  {
    if names != [] {
      EveryIsInvisible(s, names[1..], other);
      ProbingIsInvisible(s, names[0], other);
    }
  }

  lemma {:induction false} AlternativeIsInvisible(s: State, names: seq<Name>, other: Name)
    ensures Cooling(AlternativeProbed(s, names), other) == Cooling(s, other)
    ensures AlternativeProbed(s, names) == s.(cooldowns := AlternativeProbed(s, names).cooldowns)
  {
    if names != [] {
      AlternativeIsInvisible(s, names[1..], other);
      ProbingIsInvisible(s, names[0], other);
    }
  }

  ghost predicate FallbackClaims(s: State, names: seq<Name>, r: Result) {
    var calls := CallsSince(s, r.state);
    && Continues(s, r.state)
    && FirstSuccess(calls, r.reply)
    && CallsOf(s, names, calls)
    && (r.reply.None? ==> Covered(s, names, calls))
  }

  /** Every provider that could have been called was. */
  ghost predicate Covered(s: State, names: seq<Name>, calls: seq<Call>) {
    forall n :: n in names && n != s.active && !Cooling(s, n) ==> WasCalled(calls, n)
  }

  lemma CoveredEarlier(s: State, names: seq<Name>, mid: State, first: Call, rest: seq<Call>)
    requires names != [] && first.name == names[0] && mid.active == s.active
    requires forall n :: n != names[0] && !Cooling(s, n) ==> !Cooling(mid, n)
    requires Covered(mid, names[1..], rest) && forall n :: WasCalled(rest, n) || n == first.name ==> WasCalled([first] + rest, n)
    ensures Covered(s, names, [first] + rest)
  {
    assert forall n :: n in names <==> n == names[0] || n in names[1..];
  }

  lemma FirstCallAdded(first: Call, rest: seq<Call>, reply: Option<string>)
    requires FirstSuccess(rest, reply) && first.reply.Failure?
    ensures FirstSuccess([first] + rest, reply) && WasCalled([first] + rest, first.name)
    ensures forall n :: WasCalled(rest, n) ==> WasCalled([first] + rest, n)
  {
    var calls := [first] + rest;
    assert calls[0].name == first.name;
    forall n | WasCalled(rest, n) ensures WasCalled(calls, n) {
      var i :| 0 <= i < |rest| && rest[i].name == n;
      assert calls[i + 1].name == n;
    }
  }

  /** The calls went to these names only, each at most once, and not to the active provider. */
  ghost predicate CallsOf(s: State, names: seq<Name>, calls: seq<Call>) {
    && CalledOnceEach(calls)
    && forall i :: 0 <= i < |calls| ==> calls[i].name in names && calls[i].name != s.active && calls[i].operation == Generate
  }

  lemma CallsOfEarlier(s: State, names: seq<Name>, mid: State, first: Call, rest: seq<Call>)
    requires NoDuplicates(names) && names != [] && first.name == names[0] != s.active && first.operation == Generate
    requires mid.active == s.active && CallsOf(mid, names[1..], rest)
    ensures CallsOf(s, names, [first] + rest)
  {
    assert forall n :: n in names[1..] ==> n in names && n != names[0];
  }

  /** One failed call in front of a fallback that is already described. */
  lemma OneCallEarlier(s: State, names: seq<Name>, mid: State, call: Call, r: Result)
    requires NoDuplicates(names) && names != [] && names[0] != s.active
    requires call.name == names[0] && call.operation == Generate && call.reply.Failure?
    requires mid.log == s.log + [call] && s.now <= mid.now && mid.providers == s.providers && mid.active == s.active
    requires forall n :: n != names[0] && !Cooling(s, n) ==> !Cooling(mid, n)
    requires FallbackClaims(mid, names[1..], r)
    ensures FallbackClaims(s, names, r)
  {
    var rest, calls := CallsSince(mid, r.state), CallsSince(s, r.state);
    assert calls == [call] + rest;
    FirstCallAdded(call, rest, r.reply);
    if r.reply.None? {
      CoveredEarlier(s, names, mid, call, rest);
    }
    CallsOfEarlier(s, names, mid, call, rest);
  }

  lemma {:induction false} FallbackFacts(s: State, names: seq<Name>, w: World)
    requires NoDuplicates(names)
    ensures FallbackClaims(s, names, Fallback(s, names, w))
    decreases |names|
  {
    if names != [] {
      var name := names[0];
      assert NoDuplicates(names[1..]) && name !in names[1..];
      assert forall n :: n in names <==> n == name || n in names[1..];
      if name == s.active || Cooling(s, name) {
        FallbackFacts(s, names[1..], w);
      } else {
        var reply := w(|s.log|, name);
        var called := Invoked(Probed(s, name), name, Generate, w);
        var call := Call(name, Generate, reply, called.now);
        assert called.log == s.log + [call];
        if reply.Failure? {
          var mid := AfterFailure(called, name, reply);
          FallbackFacts(mid, names[1..], w);
          OneCallEarlier(s, names, mid, call, Fallback(mid, names[1..], w));
        } else {
          assert CallsSince(s, called) == [call];
        }
      }
    }
  }

  // ---------------------------------------------------------------- the unlocked request

  /** With a provider that is not cooling among the names, resetting changes nothing about who is cooling. */
  lemma ResetFacts(s: State, other: Name)
    ensures Cooling(Reset(s), other) == (Cooling(s, other) && !AllCooling(s, s.providers))
    ensures Reset(s) == s.(cooldowns := Reset(s).cooldowns, resets := Reset(s).resets)
    ensures Reset(s).resets == if AllCooling(s, s.providers) then s.resets + 1 else s.resets
  {
    EveryIsInvisible(s, s.providers, other);
  }

  /** The active provider is passed over: it is cooling, somebody else is not, and the lock is open. */
  predicate Skips(s: State, lockedAtSkip: bool) {
    Cooling(s, s.active) && UsableAlternative(s, s.providers) && !lockedAtSkip
  }

  /** Where the fallback loop of a request starts, before the reset, when the lock is open then. */
  function FallbackStart(s: State, lockedAtSkip: bool, w: World): State {
    if Skips(s, lockedAtSkip) then AlternativeProbed(s, s.providers)
    else
      var ready := if Cooling(s, s.active) then AlternativeProbed(s, s.providers) else Probed(s, s.active);
      var reply := w(|s.log|, s.active);
      var called := Invoked(ready, s.active, Generate, w);
      if reply.Failure? then AfterFailure(called, s.active, reply) else called
  }

  ghost predicate Registered(s: State) {
    NoDuplicates(s.providers) && s.active in s.providers
  }

  ghost predicate RequestClaims(s: State, start: State, r: Result) {
    var calls := CallsSince(s, r.state);
    && Continues(s, r.state)
    && calls != []
    && FirstSuccess(calls, r.reply)
    && CalledOnceEach(calls)
    && (r.reply.None? ==>
          forall n :: n in s.providers && n != s.active && !Cooling(Reset(start), n) ==> WasCalled(calls, n))
  }

  /** The active provider's failed call in front of the fallback. */
  lemma ActiveCallEarlier(s: State, start: State, call: Call, r: Result)
    requires call.name == s.active && call.reply.Failure?
    requires start.log == s.log + [call] && s.now <= start.now && start.providers == s.providers && start.active == s.active
    requires FallbackClaims(Reset(start), s.providers, r)
    ensures RequestClaims(s, start, r)
  {
    ResetFacts(start, s.active);
    var rest, calls := CallsSince(Reset(start), r.state), CallsSince(s, r.state);
    assert calls == [call] + rest;
    FirstCallAdded(call, rest, r.reply);
  }

  /** The active provider skipped: somebody else, not cooling, is there to be called. */
  lemma ActiveSkipped(s: State, r: Result)
    requires Cooling(s, s.active) && UsableAlternative(s, s.providers)
    requires var start := AlternativeProbed(s, s.providers); FallbackClaims(Reset(start), s.providers, r)
    ensures RequestClaims(s, AlternativeProbed(s, s.providers), r)
  {
    var start := AlternativeProbed(s, s.providers);
    var i :| 0 <= i < |s.providers| && s.providers[i] != s.active && !Cooling(s, s.providers[i]);
    AlternativeIsInvisible(s, s.providers, s.providers[i]);
    ResetFacts(start, s.providers[i]);
    assert CallsSince(Reset(start), r.state) == CallsSince(s, r.state);
    if r.reply.None? {
      assert WasCalled(CallsSince(s, r.state), s.providers[i]);
    }
  }

  /** The active provider failed: the fallback does the rest. */
  lemma ActiveFailed(s: State, start: State, call: Call, w: World)
    requires Registered(s) && call.name == s.active && call.reply.Failure?
    requires start.log == s.log + [call] && s.now <= start.now && start.providers == s.providers && start.active == s.active
    ensures RequestClaims(s, start, TryFallback(start, false, w))
  {
    FallbackFacts(Reset(start), s.providers, w);
    ResetFacts(start, s.active);
    ActiveCallEarlier(s, start, call, Fallback(Reset(start), s.providers, w));
  }

  lemma UnlockedActiveCall(s: State, ls: bool, w: World)
    requires Registered(s) && !Skips(s, ls)
    ensures RequestClaims(s, FallbackStart(s, ls, w), Respond(s, ls, false, w))
  {
    AlternativeIsInvisible(s, s.providers, s.active);
    var reply := w(|s.log|, s.active);
    var ready := if Cooling(s, s.active) then AlternativeProbed(s, s.providers) else Probed(s, s.active);
    var called := Invoked(ready, s.active, Generate, w);
    var call := Call(s.active, Generate, reply, called.now);
    assert called.log == s.log + [call];
    if reply.Failure? {
      ActiveFailed(s, FallbackStart(s, ls, w), call, w);
    } else {
      assert CallsSince(s, called) == [call];
    }
  }

  /**
   * With the lock open at the fallback, whatever it was before: at least one provider is called and none twice, the
   * first success is the reply, the selection stays, and a request that fails has called every other provider that is
   * not cooling once the reset has run.
   */
  lemma UnlockedRequest(s: State, ls: bool, w: World)
    requires Registered(s)
    ensures RequestClaims(s, FallbackStart(s, ls, w), Respond(s, ls, false, w))
  {
    if Skips(s, ls) {
      var start := FallbackStart(s, ls, w);
      FallbackFacts(Reset(start), s.providers, w);
      ResetFacts(start, s.active);
      AlternativeIsInvisible(s, s.providers, s.active);
      ActiveSkipped(s, Respond(s, ls, false, w));
    } else {
      UnlockedActiveCall(s, ls, w);
    }
  }

  // ---------------------------------------------------------------- in which order

  function NamesOf(calls: seq<Call>): seq<Name> {
    seq(|calls|, i requires 0 <= i < |calls| => calls[i].name)
  }

  /** xs comes out of ys by leaving some out. */
  ghost predicate Sublist(xs: seq<Name>, ys: seq<Name>)
    decreases |ys|
  {
    if xs == [] then true
    else ys != [] && ((xs[0] == ys[0] && Sublist(xs[1..], ys[1..])) || Sublist(xs, ys[1..]))
  }

  lemma NamesAdded(s: State, mid: State, t: State, call: Call)
    requires mid.log == s.log + [call] && mid.log <= t.log
    ensures NamesOf(CallsSince(s, t)) == [call.name] + NamesOf(CallsSince(mid, t))
  {
    assert CallsSince(s, t) == [call] + CallsSince(mid, t);
  }

  /** The fallback loop goes through the providers in registry order. */
  lemma {:induction false} FallbackInOrder(s: State, names: seq<Name>, w: World)
    ensures s.log <= Fallback(s, names, w).state.log
    ensures Sublist(NamesOf(CallsSince(s, Fallback(s, names, w).state)), names)
    decreases |names|
  {
    if names == [] {
      assert CallsSince(s, s) == [];
    } else {
      var name := names[0];
      if name == s.active || Cooling(s, name) {
        FallbackInOrder(s, names[1..], w);
      } else {
        var reply := w(|s.log|, name);
        var called := Invoked(Probed(s, name), name, Generate, w);
        var mid := if reply.Failure? then AfterFailure(called, name, reply) else called;
        var t := Fallback(s, names, w).state;
        if reply.Failure? {
          FallbackInOrder(mid, names[1..], w);
        } else {
          assert NamesOf(CallsSince(mid, t)) == [];
        }
        NamesAdded(s, mid, t, mid.log[|s.log|]);
        assert NamesOf(CallsSince(s, t))[1..] == NamesOf(CallsSince(mid, t));
      }
    }
  }

  /** Whom a request calls, and in which order: the active provider first unless it is passed over. */
  ghost predicate OrderClaims(s: State, ls: bool, names: seq<Name>) {
    if Skips(s, ls) then Sublist(names, s.providers) && s.active !in names
    else names != [] && names[0] == s.active && Sublist(names[1..], s.providers) && s.active !in names[1..]
  }

  lemma ResetFallbackOrder(start: State, w: World)
    requires Registered(start)
    ensures var t := Fallback(Reset(start), start.providers, w).state;
      && start.log <= t.log
      && Sublist(NamesOf(CallsSince(start, t)), start.providers) && start.active !in NamesOf(CallsSince(start, t))
  {
    ResetFacts(start, start.active);
    FallbackInOrder(Reset(start), start.providers, w);
    FallbackFacts(Reset(start), start.providers, w);
    var t := Fallback(Reset(start), start.providers, w).state;
    assert CallsSince(Reset(start), t) == CallsSince(start, t);
  }

  /**
   * With the lock open at the fallback, a request calls the active provider first, unless that is passed over, and then
   * the others in registry order.
   */
  lemma RequestInOrder(s: State, ls: bool, w: World)
    requires Registered(s)
    ensures OrderClaims(s, ls, NamesOf(CallsSince(s, Respond(s, ls, false, w).state)))
  {
    var t, start := Respond(s, ls, false, w).state, FallbackStart(s, ls, w);
    AlternativeIsInvisible(s, s.providers, s.active);
    if Skips(s, ls) {
      ResetFallbackOrder(start, w);
      assert CallsSince(start, t) == CallsSince(s, t);
    } else {
      if w(|s.log|, s.active).Failure? {
        ResetFallbackOrder(start, w);
      } else {
        assert NamesOf(CallsSince(start, t)) == [];
      }
      NamesAdded(s, start, t, start.log[|s.log|]);
      assert NamesOf(CallsSince(s, t))[1..] == NamesOf(CallsSince(start, t));
    }
  }

  // ---------------------------------------------------------------- the cheap model first

  /** One call to the cheap model of the active provider led here, and opened no window. */
  ghost predicate CheapModelAsked(s: State, called: State) {
    && |called.log| == |s.log| + 1 && Continues(s, called)
    && called.log[|s.log|].name == s.active && called.log[|s.log|].operation == GenerateAux
    && (forall n :: n in called.cooldowns ==> n in s.cooldowns && called.cooldowns[n] == s.cooldowns[n])
  }

  /** The cheap model's answer is the reply; its failure, for whatever reason, leaves the whole request to be made. */
  ghost predicate ThenTheRequest(called: State, lockedAtSkip: bool, lockedAtFallback: bool, w: World, r: Result) {
    called.log != [] &&
    var reply := called.log[|called.log| - 1].reply;
    if reply.Answer? then r == Result(called, Some(reply.text)) else r == Respond(called, lockedAtSkip, lockedAtFallback, w)
  }

  /**
   * An auxiliary request asks the cheap model first when one is set, the caller brings no model of its own and the
   * active provider is not cooling; otherwise it is the whole request and nothing else.
   */
  lemma AuxAsksCheapModelFirst(s: State, ownModel: bool, auxModel: bool, lockedAtSkip: bool, lockedAtFallback: bool, w: World)
    ensures var r := RespondAux(s, ownModel, auxModel, lockedAtSkip, lockedAtFallback, w);
      if ownModel || !auxModel || Cooling(s, s.active) then r == Respond(s, lockedAtSkip, lockedAtFallback, w)
      else exists called ::
        CheapModelAsked(s, called) && called.log[|s.log|].reply == w(|s.log|, s.active)
        && ThenTheRequest(called, lockedAtSkip, lockedAtFallback, w, r)
  {
    if !ownModel && auxModel && !Cooling(s, s.active) {
      var called := Invoked(Probed(s, s.active), s.active, GenerateAux, w);
      assert CheapModelAsked(s, called) && called.log[|s.log|].reply == w(|s.log|, s.active);
    }
  }

  // ---------------------------------------------------------------- the locked request

  /** All new calls went to the active provider, and nothing else about the selection changed. */
  ghost predicate OnlyActive(s: State, t: State) {
    Continues(s, t) && forall i :: 0 <= i < |CallsSince(s, t)| ==> CallsSince(s, t)[i].name == s.active
  }

  /** Under the lock a request is exactly one call, to the active provider even if it is cooling; a failure is final. */
  lemma LockedRequest(s: State, w: World)
    ensures var r := Respond(s, true, true, w);
      && OnlyActive(s, r.state) && |CallsSince(s, r.state)| == 1
      && FirstSuccess(CallsSince(s, r.state), r.reply)
      && r.state.blocks == if r.reply.Some? then s.blocks else s.blocks + 1
  {
    AlternativeIsInvisible(s, s.providers, s.active);
    var r := Respond(s, true, true, w);
    assert CallsSince(s, r.state) == [r.state.log[|s.log|]];
  }

  lemma LockedAuxFailed(s: State, called: State, call: Call, w: World)
    requires called.log == s.log + [call] && s.now <= called.now && called.providers == s.providers && called.active == s.active
    requires call.name == s.active && call.reply.Failure?
    ensures var r := Respond(called, true, true, w);
      && OnlyActive(s, r.state) && |CallsSince(s, r.state)| == 2
      && FirstSuccess(CallsSince(s, r.state), r.reply)
  {
    LockedRequest(called, w);
    var r := Respond(called, true, true, w);
    assert CallsSince(s, r.state) == [call] + CallsSince(called, r.state);
    FirstCallAdded(call, CallsSince(called, r.state), r.reply);
  }

  lemma LockedAuxRequest(s: State, ownModel: bool, auxModel: bool, w: World)
    ensures var r := RespondAux(s, ownModel, auxModel, true, true, w);
      && OnlyActive(s, r.state) && 1 <= |CallsSince(s, r.state)| <= 2
      && FirstSuccess(CallsSince(s, r.state), r.reply)
  {
    if ownModel || !auxModel || Cooling(s, s.active) {
      LockedRequest(s, w);
    } else {
      var called := Invoked(Probed(s, s.active), s.active, GenerateAux, w);
      var call := called.log[|s.log|];
      if w(|s.log|, s.active).Failure? {
        LockedAuxFailed(s, called, call, w);
      } else {
        assert CallsSince(s, called) == [call];
      }
    }
  }

  // ---------------------------------------------------------------- embeddings and speech

  /** allowedProviders: the lock narrows a list only when the locked provider is on it. */
  function Allowed(s: State, candidates: seq<Name>, locked: bool): seq<Name> {
    if !locked || s.active !in candidates then candidates else Only(candidates, s.active)
  }

  function Only(candidates: seq<Name>, name: Name): seq<Name> {
    if candidates == [] then []
    else (if candidates[0] == name then [name] else []) + Only(candidates[1..], name)
  }

  /** Ask each registered name in turn; an empty answer or a failure moves on. */
  function Ask(s: State, names: seq<Name>, w: World): Result
    decreases |names|
  {
    if names == [] then Result(s, None)
    else if names[0] !in s.providers then Ask(s, names[1..], w)
    else
      var reply := w(|s.log|, names[0]);
      var called := Invoked(s, names[0], Capability, w);
      if reply.Answer? && reply.text != "" then Result(called, Some(reply.text)) else Ask(called, names[1..], w)
  }

  function Serve(s: State, candidates: seq<Name>, locked: bool, w: World): Result {
    Ask(s, Allowed(s, candidates, locked), w)
  }

  lemma {:induction false} OnlyIsOne(candidates: seq<Name>, name: Name)
    requires NoDuplicates(candidates)
    ensures Only(candidates, name) == if name in candidates then [name] else []
  {
    if candidates != [] {
      assert NoDuplicates(candidates[1..]) && candidates[0] !in candidates[1..];
      OnlyIsOne(candidates[1..], name);
    }
  }

  /** A locked candidate is the only one called, and is called; a lock on someone who cannot serve changes nothing. */
  lemma LockedCapability(s: State, candidates: seq<Name>, w: World)
    requires Registered(s) && NoDuplicates(candidates)
    ensures s.active in candidates ==>
      OnlyActive(s, Serve(s, candidates, true, w).state) && |CallsSince(s, Serve(s, candidates, true, w).state)| == 1
    ensures s.active !in candidates ==> Serve(s, candidates, true, w) == Serve(s, candidates, false, w)
  {
    OnlyIsOne(candidates, s.active);
    if s.active in candidates {
      var called := Invoked(s, s.active, Capability, w);
      assert [s.active][1..] == [];
      assert Ask(called, [], w) == Result(called, None);
      assert Serve(s, candidates, true, w).state == called;
      assert CallsSince(s, called) == [called.log[|s.log|]];
    }
  }

  ghost predicate NoWords(call: Call) {
    call.reply.Failure? || call.reply.text == ""
  }

  ghost predicate AskClaims(s: State, names: seq<Name>, r: Result) {
    var calls := CallsSince(s, r.state);
    && Continues(s, r.state) && r.state.cooldowns == s.cooldowns
    && (forall i :: 0 <= i < |calls| ==>
          calls[i].name in names && calls[i].name in s.providers && calls[i].operation == Capability)
    && (forall i :: 0 <= i < |calls| - 1 ==> NoWords(calls[i]))
    && (r.reply.Some? ==>
          calls != [] && !NoWords(calls[|calls| - 1]) && calls[|calls| - 1].reply.text == r.reply.value)
    && (r.reply.None? ==> forall i :: 0 <= i < |calls| ==> NoWords(calls[i]))
    && (r.reply.None? ==> forall n :: n in names && n in s.providers ==> WasCalled(calls, n))
  }

  lemma StillCalled(first: Call, rest: seq<Call>, n: Name)
    requires n == first.name || WasCalled(rest, n)
    ensures WasCalled([first] + rest, n)
  {
    var calls := [first] + rest;
    if n == first.name {
      assert calls[0].name == n;
    } else {
      var i :| 0 <= i < |rest| && rest[i].name == n;
      assert calls[i + 1].name == n;
    }
  }

  lemma AskedEarlier(s: State, called: State, names: seq<Name>, r: Result)
    requires names != [] && names[0] in s.providers && |called.log| == |s.log| + 1 && Continues(s, called)
    requires called.cooldowns == s.cooldowns && called.log[|s.log|].name == names[0]
    requires called.log[|s.log|].operation == Capability && NoWords(called.log[|s.log|])
    requires AskClaims(called, names[1..], r)
    ensures AskClaims(s, names, r)
  {
    var first, rest, calls := called.log[|s.log|], CallsSince(called, r.state), CallsSince(s, r.state);
    assert calls == [first] + rest;
    assert forall n :: n in names <==> n == names[0] || n in names[1..];
    if r.reply.None? {
      forall n | n in names && n in s.providers ensures WasCalled(calls, n) {
        StillCalled(first, rest, n);
      }
    }
  }

  /** Providers are asked in list order, the first non-empty answer is the reply, and cooldowns play no part. */
  lemma {:induction false} AskGivesFirstAnswer(s: State, names: seq<Name>, w: World)
    ensures AskClaims(s, names, Ask(s, names, w))
    decreases |names|
  {
    if names != [] {
      if names[0] !in s.providers {
        AskGivesFirstAnswer(s, names[1..], w);
        assert forall n :: n in names <==> n == names[0] || n in names[1..];
      } else {
        var called := Invoked(s, names[0], Capability, w);
        var call := called.log[|s.log|];
        if NoWords(call) {
          AskGivesFirstAnswer(called, names[1..], w);
          AskedEarlier(s, called, names, Ask(called, names[1..], w));
        } else {
          assert CallsSince(s, called) == [call];
        }
      }
    }
  }

  /** The registered ones of the names, in their order. */
  function Known(s: State, names: seq<Name>): seq<Name> {
    if names == [] then []
    else (if names[0] in s.providers then [names[0]] else []) + Known(s, names[1..])
  }

  ghost predicate AskedInOrder(s: State, names: seq<Name>, r: Result) {
    && s.log <= r.state.log
    && NamesOf(CallsSince(s, r.state)) <= Known(s, names)
    && (r.reply.None? ==> NamesOf(CallsSince(s, r.state)) == Known(s, names))
  }

  lemma {:induction false} KnownStays(s: State, t: State, names: seq<Name>)
    requires s.providers == t.providers
    ensures Known(s, names) == Known(t, names)
  {
    if names != [] {
      KnownStays(s, t, names[1..]);
    }
  }

  /** The calls go down the list of registered candidates, none left out and none asked out of turn. */
  lemma {:induction false} AskInListOrder(s: State, names: seq<Name>, w: World)
    ensures AskedInOrder(s, names, Ask(s, names, w))
    decreases |names|
  {
    if names == [] {
      assert CallsSince(s, s) == [];
    } else if names[0] !in s.providers {
      AskInListOrder(s, names[1..], w);
    } else {
      var called, t := Invoked(s, names[0], Capability, w), Ask(s, names, w).state;
      if NoWords(called.log[|s.log|]) {
        AskInListOrder(called, names[1..], w);
      } else {
        assert NamesOf(CallsSince(called, t)) == [];
      }
      KnownStays(s, called, names[1..]);
      NamesAdded(s, called, t, called.log[|s.log|]);
    }
  }

  /** Without the lock the whole candidate list stands. */
  lemma OpenCapability(s: State, candidates: seq<Name>, w: World)
    ensures var r := Serve(s, candidates, false, w);
      AskClaims(s, candidates, r) && AskedInOrder(s, candidates, r)
  {
    AskGivesFirstAnswer(s, candidates, w);
    AskInListOrder(s, candidates, w);
  }

  // ---------------------------------------------------------------- switching, and whole runs

  datatype SwitchOutcome = Blocked | UnknownName | Performed

  /** switchProvider. Its gate compares the requested registry name with the active provider's display name. */
  function SwitchGate(s: State, name: Name, force: bool, locked: bool, display: Name -> Name): SwitchOutcome {
    if !force && display(s.active) != name && locked then Blocked
    else if name !in s.providers then UnknownName
    else Performed
  }

  function Switched(s: State, name: Name, force: bool, locked: bool, display: Name -> Name): State {
    if SwitchGate(s, name, force, locked, display).Performed? then s.(active := name) else s
  }

  /**
   * An unforced switch under the lock: it is performed exactly for a registered name that is the active provider's
   * display name, and so for the active provider's own name exactly when it is displayed under that name. Forced, or
   * without the lock, it is performed for every registered name.
   */
  lemma SwitchUnderLock(s: State, name: Name, display: Name -> Name)
    requires Registered(s)
    ensures SwitchGate(s, name, false, true, display).Performed? <==> display(s.active) == name && name in s.providers
    ensures SwitchGate(s, s.active, false, true, display) == if display(s.active) == s.active then Performed else Blocked
    ensures SwitchGate(s, name, false, false, display) == SwitchGate(s, name, true, true, display)
      == if name in s.providers then Performed else UnknownName
    ensures forall locked :: name in s.providers ==> Switched(s, name, true, locked, display) == s.(active := name)
    ensures Switched(s, name, false, true, display).active != s.active
      <==> (name != s.active && name in s.providers && display(s.active) == name)
  {
  }

  /** The registry names of the shipped providers, and the names they display. */
  const SHIPPED_NAMES: seq<Name> := ["openai", "anthropic", "gab", "huggingface", "ollama", "bitnet", "openrouter", "uncensored"]

  function ShippedDisplay(name: Name): Name {
    match name
    case "openai" => "OpenAI"
    case "anthropic" => "Anthropic"
    case "gab" => "Gab"
    case "huggingface" => "HuggingFace"
    case "ollama" => "Ollama"
    case "bitnet" => "BitNet"
    case "openrouter" => "OpenRouter"
    case "uncensored" => "Uncensored"
    case _ => name
  }

  predicate Capitalised(name: Name) {
    name != "" && 'A' <= name[0] <= 'Z'
  }

  lemma ShippedNamesDiffer(name: Name)
    requires name in SHIPPED_NAMES
    ensures !Capitalised(name) && Capitalised(ShippedDisplay(name))
  {
  }

  /** The comment beside the gate promises the opposite: switching to the provider that is already active is blocked. */
  lemma SameProviderSwitchBlocked(s: State)
    requires s.active == "openai" && s.providers == ["openai", "anthropic"]
    ensures SwitchGate(s, "openai", false, true, ShippedDisplay) == Blocked
    ensures SwitchGate(s, "openai", false, false, ShippedDisplay) == Performed
  {
    ShippedNamesDiffer("openai");
  }

  /** With the shipped names no unforced switch gets through the lock, whatever name it asks for. */
  lemma ShippedLockHolds(s: State, name: Name)
    requires s.active in s.providers && forall n :: n in s.providers ==> n in SHIPPED_NAMES
    ensures !SwitchGate(s, name, false, true, ShippedDisplay).Performed?
    ensures ShippedDisplay(s.active) !in s.providers
  {
    ShippedNamesDiffer(s.active);
    if ShippedDisplay(s.active) in s.providers {
      ShippedNamesDiffer(ShippedDisplay(s.active));
    }
  }

  /** A provider registered under the name another one displays is what it takes; none of the shipped ones is. */
  lemma DisplayNameOpensLock(s: State)
    requires s.active == "openai" && s.providers == ["openai", "OpenAI"]
    ensures Switched(s, "OpenAI", false, true, ShippedDisplay).active == "OpenAI" != s.active
  {
    ShippedNamesDiffer("openai");
    assert ShippedDisplay("openai") == "OpenAI";
  }

  datatype Event =
    | Tick(elapsed: nat)
    | Request(lockedAtSkip: bool, lockedAtFallback: bool)
    | AuxRequest(ownModel: bool, auxModel: bool, lockedAtSkip: bool, lockedAtFallback: bool)
    | CapabilityRequest(candidates: seq<Name>, locked: bool)
    | Switch(name: Name, force: bool, locked: bool)

  function Apply(s: State, e: Event, w: World, display: Name -> Name): State {
    match e
    case Tick(d) => s.(now := s.now + d)
    case Request(ls, lf) => Respond(s, ls, lf, w).state
    case AuxRequest(own, aux, ls, lf) => RespondAux(s, own, aux, ls, lf, w).state
    case CapabilityRequest(candidates, locked) => Serve(s, candidates, locked, w).state
    case Switch(name, force, locked) => Switched(s, name, force, locked, display)
  }

  function Run(s: State, es: seq<Event>, w: World, display: Name -> Name): State
    decreases |es|
  {
    if es == [] then s else Run(Apply(s, es[0], w, display), es[1..], w, display)
  }

  /** A generation call of the provider that failed for its quota. */
  predicate QuotaCall(call: Call, name: Name) {
    call.name == name && call.operation == Generate && call.reply.Failure? && call.reply.quota
  }

  /** A logged quota failure of the provider that ended at time t. */
  ghost predicate QuotaFailed(log: seq<Call>, name: Name, t: int) {
    exists i :: 0 <= i < |log| && QuotaCall(log[i], name) && log[i].at == t
  }

  /** Every cooldown was opened by a logged quota failure and ends 30 minutes after it. */
  ghost predicate Windowed(s: State) {
    forall n :: n in s.cooldowns ==> QuotaFailed(s.log, n, s.cooldowns[n] - COOLDOWN_MS)
  }

  lemma LongerLog(log: seq<Call>, call: Call, name: Name, t: int)
    requires QuotaFailed(log, name, t)
    ensures QuotaFailed(log + [call], name, t)
  {
    var i :| 0 <= i < |log| && QuotaCall(log[i], name) && log[i].at == t;
    assert (log + [call])[i] == log[i];
  }

  lemma WindowedCall(s: State, name: Name, op: Operation, w: World)
    requires Windowed(s)
    ensures Windowed(Invoked(s, name, op, w))
    ensures var reply := w(|s.log|, name);
      op == Generate && reply.Failure? ==> Windowed(AfterFailure(Invoked(s, name, op, w), name, reply))
  {
    var t := Invoked(s, name, op, w);
    var call := t.log[|s.log|];
    forall n | n in s.cooldowns ensures QuotaFailed(t.log, n, s.cooldowns[n] - COOLDOWN_MS) {
      LongerLog(s.log, call, n, s.cooldowns[n] - COOLDOWN_MS);
    }
    if op == Generate && call.reply.Failure? && call.reply.quota {
      assert QuotaCall(t.log[|s.log|], name) && QuotaFailed(t.log, name, t.now);
    }
  }

  lemma {:induction false} WindowedProbes(s: State, names: seq<Name>)
    requires Windowed(s)
    ensures Windowed(EveryProbed(s, names)) && Windowed(AlternativeProbed(s, names))
  {
    if names != [] {
      WindowedProbes(s, names[1..]);
    }
  }

  lemma {:induction false} WindowedFallback(s: State, names: seq<Name>, w: World)
    requires Windowed(s)
    ensures Windowed(Fallback(s, names, w).state)
    decreases |names|
  {
    if names != [] {
      var name := names[0];
      if name == s.active || Cooling(s, name) {
        WindowedFallback(s, names[1..], w);
      } else {
        var reply := w(|s.log|, name);
        WindowedCall(Probed(s, name), name, Generate, w);
        if reply.Failure? {
          WindowedFallback(AfterFailure(Invoked(Probed(s, name), name, Generate, w), name, reply), names[1..], w);
        }
      }
    }
  }

  lemma WindowedTry(s: State, locked: bool, w: World)
    requires Windowed(s)
    ensures Windowed(TryFallback(s, locked, w).state)
  {
    WindowedProbes(s, s.providers);
    WindowedFallback(Reset(s), s.providers, w);
  }

  lemma WindowedRespond(s: State, ls: bool, lf: bool, w: World)
    requires Windowed(s)
    ensures Windowed(Respond(s, ls, lf, w).state)
  {
    WindowedProbes(s, s.providers);
    AlternativeIsInvisible(s, s.providers, s.active);
    if Cooling(s, s.active) && UsableAlternative(s, s.providers) && !ls {
      WindowedTry(AlternativeProbed(s, s.providers), lf, w);
    } else {
      var ready := if Cooling(s, s.active) then AlternativeProbed(s, s.providers) else Probed(s, s.active);
      var reply := w(|s.log|, s.active);
      WindowedCall(ready, s.active, Generate, w);
      if reply.Failure? {
        WindowedTry(AfterFailure(Invoked(ready, s.active, Generate, w), s.active, reply), lf, w);
      }
    }
  }

  lemma {:induction false} WindowedAsk(s: State, names: seq<Name>, w: World)
    requires Windowed(s)
    ensures Windowed(Ask(s, names, w).state)
    decreases |names|
  {
    if names != [] {
      WindowedCall(s, names[0], Capability, w);
      WindowedAsk(s, names[1..], w);
      WindowedAsk(Invoked(s, names[0], Capability, w), names[1..], w);
    }
  }

  lemma WindowedStep(s: State, e: Event, w: World, display: Name -> Name)
    requires Windowed(s)
    ensures Windowed(Apply(s, e, w, display))
  {
    match e
    case Request(ls, lf) => WindowedRespond(s, ls, lf, w);
    case AuxRequest(own, aux, ls, lf) =>
      WindowedRespond(s, ls, lf, w);
      if !own && aux && !Cooling(s, s.active) {
        var called := Invoked(Probed(s, s.active), s.active, GenerateAux, w);
        WindowedCall(Probed(s, s.active), s.active, GenerateAux, w);
        WindowedRespond(called, ls, lf, w);
      }
    case CapabilityRequest(candidates, locked) => WindowedAsk(s, Allowed(s, candidates, locked), w);
    case _ =>
  }

  lemma {:induction false} WindowedRun(s: State, es: seq<Event>, w: World, display: Name -> Name)
    requires Windowed(s)
    ensures Windowed(Run(s, es, w, display))
    decreases |es|
  {
    if es != [] {
      WindowedStep(s, es[0], w, display);
      WindowedRun(Apply(s, es[0], w, display), es[1..], w, display);
    }
  }

  /** In every run, a provider that is being skipped failed for its quota less than 30 minutes ago. */
  lemma SkipsAreRecent(s: State, es: seq<Event>, w: World, display: Name -> Name, name: Name)
    requires s.cooldowns == map[]
    ensures var t := Run(s, es, w, display);
      Cooling(t, name) ==> exists at :: QuotaFailed(t.log, name, at) && t.now < at + COOLDOWN_MS
  {
    WindowedRun(s, es, w, display);
    var t := Run(s, es, w, display);
    if Cooling(t, name) {
      assert QuotaFailed(t.log, name, t.cooldowns[name] - COOLDOWN_MS);
    }
  }

  // ---------------------------------------------------------------- a window, once open, is not moved

  /** The window that ends at `end` has stood until now; only one opened after its end can be there in its place. */
  ghost predicate Stands(t: State, name: Name, end: int) {
    && (t.now < end ==> name in t.cooldowns && t.cooldowns[name] == end)
    && (name in t.cooldowns ==> t.cooldowns[name] == end || (end <= t.now && end + COOLDOWN_MS <= t.cooldowns[name]))
  }

  lemma StandsCall(s: State, called: Name, op: Operation, w: World, name: Name, end: int)
    requires Stands(s, name, end)
    ensures Stands(Probed(s, called), name, end)
    ensures Stands(Invoked(s, called, op, w), name, end)
    ensures var reply := w(|s.log|, called);
      reply.Failure? ==> Stands(AfterFailure(Invoked(s, called, op, w), called, reply), name, end)
  {
  }

  lemma {:induction false} StandsProbes(s: State, names: seq<Name>, name: Name, end: int)
    requires Stands(s, name, end)
    ensures Stands(EveryProbed(s, names), name, end) && Stands(AlternativeProbed(s, names), name, end)
  {
    if names != [] {
      StandsProbes(s, names[1..], name, end);
    }
  }

  lemma {:induction false} StandsFallback(s: State, names: seq<Name>, w: World, name: Name, end: int)
    requires Stands(s, name, end)
    ensures Stands(Fallback(s, names, w).state, name, end) && Fallback(s, names, w).state.resets == s.resets
    decreases |names|
  {
    if names != [] {
      var next := names[0];
      if next == s.active || Cooling(s, next) {
        StandsFallback(s, names[1..], w, name, end);
      } else {
        var reply := w(|s.log|, next);
        StandsCall(s, next, Generate, w, name, end);
        StandsCall(Probed(s, next), next, Generate, w, name, end);
        if reply.Failure? {
          StandsFallback(AfterFailure(Invoked(Probed(s, next), next, Generate, w), next, reply), names[1..], w, name, end);
        }
      }
    }
  }

  /** The reset is the one thing that drops a window, and it happens exactly when everyone is cooling. */
  lemma StandsTry(s: State, locked: bool, w: World, name: Name, end: int)
    requires Stands(s, name, end)
    ensures var t := TryFallback(s, locked, w).state;
      && t.resets == s.resets + (if !locked && AllCooling(s, s.providers) then 1 else 0)
      && (t.resets == s.resets ==> Stands(t, name, end))
  {
    StandsProbes(s, s.providers, name, end);
    ResetFacts(s, name);
    if AllCooling(s, s.providers) {
      FallbackKeepsResets(Reset(s), s.providers, w);
    } else {
      StandsFallback(Reset(s), s.providers, w, name, end);
    }
  }

  lemma {:induction false} FallbackKeepsResets(s: State, names: seq<Name>, w: World)
    ensures Fallback(s, names, w).state.resets == s.resets
    decreases |names|
  {
    if names != [] {
      if names[0] == s.active || Cooling(s, names[0]) {
        FallbackKeepsResets(s, names[1..], w);
      } else {
        var reply := w(|s.log|, names[0]);
        if reply.Failure? {
          FallbackKeepsResets(AfterFailure(Invoked(Probed(s, names[0]), names[0], Generate, w), names[0], reply), names[1..], w);
        }
      }
    }
  }

  lemma StandsRespond(s: State, ls: bool, lf: bool, w: World, name: Name, end: int)
    requires Stands(s, name, end)
    ensures var t := Respond(s, ls, lf, w).state;
      s.resets <= t.resets && (t.resets == s.resets ==> Stands(t, name, end))
  {
    StandsProbes(s, s.providers, name, end);
    StandsCall(s, s.active, Generate, w, name, end);
    AlternativeIsInvisible(s, s.providers, s.active);
    if Cooling(s, s.active) && UsableAlternative(s, s.providers) && !ls {
      StandsTry(AlternativeProbed(s, s.providers), lf, w, name, end);
    } else {
      var ready := if Cooling(s, s.active) then AlternativeProbed(s, s.providers) else Probed(s, s.active);
      var reply := w(|s.log|, s.active);
      StandsCall(ready, s.active, Generate, w, name, end);
      if reply.Failure? {
        StandsTry(AfterFailure(Invoked(ready, s.active, Generate, w), s.active, reply), lf, w, name, end);
      }
    }
  }

  lemma {:induction false} StandsAsk(s: State, names: seq<Name>, w: World, name: Name, end: int)
    requires Stands(s, name, end)
    ensures Stands(Ask(s, names, w).state, name, end) && Ask(s, names, w).state.resets == s.resets
    decreases |names|
  {
    if names != [] {
      StandsCall(s, names[0], Capability, w, name, end);
      StandsAsk(s, names[1..], w, name, end);
      StandsAsk(Invoked(s, names[0], Capability, w), names[1..], w, name, end);
    }
  }

  lemma StandsStep(s: State, e: Event, w: World, display: Name -> Name, name: Name, end: int)
    requires Stands(s, name, end)
    ensures var t := Apply(s, e, w, display);
      s.resets <= t.resets && (t.resets == s.resets ==> Stands(t, name, end))
  {
    match e
    case Request(ls, lf) => StandsRespond(s, ls, lf, w, name, end);
    case AuxRequest(own, aux, ls, lf) =>
      StandsRespond(s, ls, lf, w, name, end);
      if !own && aux && !Cooling(s, s.active) {
        StandsCall(s, s.active, GenerateAux, w, name, end);
        StandsCall(Probed(s, s.active), s.active, GenerateAux, w, name, end);
        StandsRespond(Invoked(Probed(s, s.active), s.active, GenerateAux, w), ls, lf, w, name, end);
      }
    case CapabilityRequest(candidates, locked) => StandsAsk(s, Allowed(s, candidates, locked), w, name, end);
    case _ =>
  }

  lemma {:induction false} ResetsGrow(s: State, es: seq<Event>, w: World, display: Name -> Name)
    ensures s.resets <= Run(s, es, w, display).resets
    decreases |es|
  {
    if es != [] {
      StandsStep(s, es[0], w, display, "", if "" in s.cooldowns then s.cooldowns[""] else s.now);
      ResetsGrow(Apply(s, es[0], w, display), es[1..], w, display);
    }
  }

  /** An open window stands until it ends, whatever is asked and whatever fails, unless all are dropped at once. */
  lemma {:induction false} WindowStands(s: State, es: seq<Event>, w: World, display: Name -> Name, name: Name, end: int)
    requires Stands(s, name, end) && Run(s, es, w, display).resets == s.resets
    ensures Stands(Run(s, es, w, display), name, end)
    decreases |es|
  {
    if es != [] {
      StandsStep(s, es[0], w, display, name, end);
      ResetsGrow(Apply(s, es[0], w, display), es[1..], w, display);
      WindowStands(Apply(s, es[0], w, display), es[1..], w, display, name, end);
    }
  }

  lemma {:induction false} FallbackPassesActive(s: State, names: seq<Name>, w: World)
    ensures s.active in Fallback(s, names, w).state.cooldowns <==> s.active in s.cooldowns
    ensures s.active in s.cooldowns ==> Fallback(s, names, w).state.cooldowns[s.active] == s.cooldowns[s.active]
    decreases |names|
  {
    if names != [] {
      if names[0] == s.active || Cooling(s, names[0]) {
        FallbackPassesActive(s, names[1..], w);
      } else {
        var reply := w(|s.log|, names[0]);
        if reply.Failure? {
          FallbackPassesActive(AfterFailure(Invoked(Probed(s, names[0]), names[0], Generate, w), names[0], reply), names[1..], w);
        }
      }
    }
  }

  /** The active provider's open window comes through a fallback, to the millisecond, exactly when that does not begin with a reset. */
  lemma ActiveWindowStandsExactly(s: State, locked: bool, w: World)
    requires Cooling(s, s.active)
    ensures var t := TryFallback(s, locked, w).state;
      (s.active in t.cooldowns && t.cooldowns[s.active] == s.cooldowns[s.active]) <==> (locked || !AllCooling(s, s.providers))
  {
    EveryIsInvisible(s, s.providers, s.active);
    ProbesKeepWindow(s, s.providers, s.active);
    FallbackPassesActive(Reset(s), s.providers, w);
  }

  lemma {:induction false} ProbesKeepWindow(s: State, names: seq<Name>, name: Name)
    requires Cooling(s, name)
    ensures name in EveryProbed(s, names).cooldowns && EveryProbed(s, names).cooldowns[name] == s.cooldowns[name]
  {
    if names != [] {
      ProbesKeepWindow(s, names[1..], name);
    }
  }

  /** The provider failed for its quota at that time, and is skipped for it until 30 minutes later. */
  ghost predicate Opened(t: State, name: Name, at: int) {
    QuotaFailed(t.log, name, at) && name in t.cooldowns && t.cooldowns[name] == at + COOLDOWN_MS
  }

  /**
   * Whatever came before, a provider that is being skipped was put aside by one quota failure of its own; and whatever
   * comes after, short of a reset, it is skipped until 30 minutes after that failure and not longer for it: a later
   * window was opened by another failure, after this one had ended.
   */
  lemma SkipsEndInTime(s: State, before: seq<Event>, after: seq<Event>, w: World, display: Name -> Name, name: Name)
    requires s.cooldowns == map[] && Cooling(Run(s, before, w, display), name)
    requires Run(Run(s, before, w, display), after, w, display).resets == Run(s, before, w, display).resets
    ensures var m := Run(s, before, w, display);
      var t := Run(m, after, w, display);
      exists at :: Opened(m, name, at) && EndsOnTime(t, name, at)
  {
    var m := Run(s, before, w, display);
    WindowedRun(s, before, w, display);
    WindowStands(m, after, w, display, name, m.cooldowns[name]);
    WindowedRun(m, after, w, display);
    var at := m.cooldowns[name] - COOLDOWN_MS;
    assert Opened(m, name, at);
    var t := Run(m, after, w, display);
    if Cooling(t, name) && at + COOLDOWN_MS <= t.now {
      assert Opened(t, name, t.cooldowns[name] - COOLDOWN_MS);
    }
  }

  /** Skipped for the failure at `at` until its 30 minutes are over, and then only for one that came after them. */
  ghost predicate EndsOnTime(t: State, name: Name, at: int) {
    && (t.now < at + COOLDOWN_MS ==> Cooling(t, name) && t.cooldowns[name] == at + COOLDOWN_MS)
    && (at + COOLDOWN_MS <= t.now && Cooling(t, name) ==> exists later :: at + COOLDOWN_MS <= later && Opened(t, name, later))
  }

  // ---------------------------------------------------------------- a quota failure is remembered

  /**
   * The failure of call j is what keeps the provider of call i aside: its own one, or an earlier one whose window was
   * still open when call i began. The window that ends 30 minutes after it stands.
   */
  ghost predicate RememberedBy(t: State, i: nat, j: nat)
    requires j <= i < |t.log|
  {
    && QuotaCall(t.log[j], t.log[i].name)
    && (j == i || t.log[i].at - t.log[i].reply.elapsed < t.log[j].at + COOLDOWN_MS)
    && Stands(t, t.log[i].name, t.log[j].at + COOLDOWN_MS)
  }

  ghost predicate Remembered(t: State, i: nat)
    requires i < |t.log|
  {
    QuotaCall(t.log[i], t.log[i].name) ==> exists j :: 0 <= j <= i && RememberedBy(t, i, j)
  }

  ghost predicate AllRemembered(t: State, from: nat) {
    forall i :: from <= i < |t.log| ==> Remembered(t, i)
  }

  /** What stood still stands. */
  ghost predicate KeepsWindows(s: State, t: State) {
    s.log <= t.log && forall name, end :: Stands(s, name, end) ==> Stands(t, name, end)
  }

  lemma RememberedStays(s: State, t: State, from: nat)
    requires AllRemembered(s, from) && KeepsWindows(s, t)
    ensures forall i :: from <= i < |s.log| ==> Remembered(t, i)
  {
    forall i | from <= i < |s.log| ensures Remembered(t, i) {
      assert Remembered(s, i) && t.log[i] == s.log[i];
      if QuotaCall(s.log[i], s.log[i].name) {
        var j :| 0 <= j <= i && RememberedBy(s, i, j);
        assert t.log[j] == s.log[j] && RememberedBy(t, i, j);
      }
    }
  }

  /** Where a generation call leads: its failure, if it is one, has been dealt with. */
  function AfterCall(s: State, name: Name, w: World): State {
    var reply := w(|s.log|, name);
    var called := Invoked(s, name, Generate, w);
    if reply.Failure? then AfterFailure(called, name, reply) else called
  }

  lemma NewCallRemembered(s: State, name: Name, w: World)
    requires Windowed(s) && (name in s.cooldowns ==> Cooling(s, name))
    ensures Remembered(AfterCall(s, name, w), |s.log|)
  {
    var t, n := AfterCall(s, name, w), |s.log|;
    if QuotaCall(t.log[n], name) {
      if name in s.cooldowns {
        var j :| 0 <= j < n && QuotaCall(s.log[j], name) && s.log[j].at == s.cooldowns[name] - COOLDOWN_MS;
        assert t.log[j] == s.log[j] && RememberedBy(t, n, j);
      } else {
        assert RememberedBy(t, n, n);
      }
    }
  }

  /**
   * A quota failure leaves its provider skipped iff the call began outside a window of the provider or ended inside it:
   * a window that runs out during the call is still recorded when the failure comes in, and no new one is opened.
   */
  lemma FailureIsSkippedExactly(s: State, name: Name, w: World)
    requires name in s.cooldowns ==> Cooling(s, name)
    requires w(|s.log|, name).Failure? && w(|s.log|, name).quota
    ensures var t := AfterCall(s, name, w);
      Cooling(t, name) <==> name !in s.cooldowns || t.now < s.cooldowns[name]
  {
    var t := AfterCall(s, name, w);
    assert name !in s.cooldowns ==> t.cooldowns[name] == t.now + COOLDOWN_MS;
  }

  /** One second before its window ends the locked provider is called once more, for two seconds, and fails for its quota. */
  lemma LapsedWindowHidesFailure(s: State, w: World)
    requires s.active == "openai" && s.cooldowns == map["openai" := s.now + 1000] && w(|s.log|, "openai") == Failure(true, 2000)
    ensures !Cooling(Respond(s, true, true, w).state, "openai")
  {
    LockedRequest(s, w);
    AlternativeIsInvisible(s, s.providers, "openai");
    StandsProbes(s, s.providers, "openai", s.now + 1000);
  }

  lemma CallRemembered(s: State, name: Name, w: World, from: nat)
    requires Windowed(s) && AllRemembered(s, from) && (name in s.cooldowns ==> Cooling(s, name))
    ensures AllRemembered(AfterCall(s, name, w), from) && Windowed(AfterCall(s, name, w))
  {
    var t := AfterCall(s, name, w);
    forall n, end | Stands(s, n, end) ensures Stands(t, n, end) {
      StandsCall(s, name, Generate, w, n, end);
    }
    RememberedStays(s, t, from);
    NewCallRemembered(s, name, w);
    WindowedCall(s, name, Generate, w);
  }

  lemma ProbesRemember(s: State, names: seq<Name>, name: Name, from: nat)
    requires AllRemembered(s, from)
    ensures AllRemembered(EveryProbed(s, names), from) && AllRemembered(AlternativeProbed(s, names), from)
    ensures AllRemembered(Probed(s, name), from)
  {
    EveryIsInvisible(s, names, name);
    AlternativeIsInvisible(s, names, name);
    forall n, end | Stands(s, n, end)
      ensures Stands(EveryProbed(s, names), n, end) && Stands(AlternativeProbed(s, names), n, end) && Stands(Probed(s, name), n, end)
    {
      StandsProbes(s, names, n, end);
    }
    RememberedStays(s, EveryProbed(s, names), from);
    RememberedStays(s, AlternativeProbed(s, names), from);
    RememberedStays(s, Probed(s, name), from);
  }

  lemma {:induction false} FallbackRemembers(s: State, names: seq<Name>, w: World, from: nat)
    requires Windowed(s) && AllRemembered(s, from)
    ensures AllRemembered(Fallback(s, names, w).state, from)
    decreases |names|
  {
    if names != [] {
      if names[0] == s.active || Cooling(s, names[0]) {
        FallbackRemembers(s, names[1..], w, from);
      } else {
        ProbesRemember(s, [], names[0], from);
        CallRemembered(Probed(s, names[0]), names[0], w, from);
        FallbackRemembers(AfterCall(Probed(s, names[0]), names[0], w), names[1..], w, from);
      }
    }
  }

  lemma TryRemembers(s: State, locked: bool, w: World, from: nat)
    requires Windowed(s) && AllRemembered(s, from) && TryFallback(s, locked, w).state.resets == s.resets
    ensures AllRemembered(TryFallback(s, locked, w).state, from)
  {
    if locked {
      var t := TryFallback(s, locked, w).state;
      assert forall n, end :: Stands(s, n, end) ==> Stands(t, n, end);
      RememberedStays(s, t, from);
    } else {
      ResetFacts(s, s.active);
      FallbackKeepsResets(Reset(s), s.providers, w);
      ProbesRemember(s, s.providers, s.active, from);
      WindowedProbes(s, s.providers);
      FallbackRemembers(Reset(s), s.providers, w, from);
    }
  }

  lemma RespondRemembers(s: State, ls: bool, lf: bool, w: World, from: nat)
    requires Windowed(s) && AllRemembered(s, from) && Respond(s, ls, lf, w).state.resets == s.resets
    ensures AllRemembered(Respond(s, ls, lf, w).state, from)
  {
    ProbesRemember(s, s.providers, s.active, from);
    WindowedProbes(s, s.providers);
    AlternativeIsInvisible(s, s.providers, s.active);
    if Cooling(s, s.active) && UsableAlternative(s, s.providers) && !ls {
      TryRemembers(AlternativeProbed(s, s.providers), lf, w, from);
    } else {
      var ready := if Cooling(s, s.active) then AlternativeProbed(s, s.providers) else Probed(s, s.active);
      CallRemembered(ready, s.active, w, from);
      if w(|s.log|, s.active).Failure? {
        TryRemembers(AfterCall(ready, s.active, w), lf, w, from);
      }
    }
  }

  /** Calls of other kinds open no window and close none. */
  lemma OtherCallRemembers(s: State, name: Name, op: Operation, w: World, from: nat)
    requires AllRemembered(s, from) && op != Generate
    ensures AllRemembered(Invoked(s, name, op, w), from)
  {
    var t := Invoked(s, name, op, w);
    forall n, end | Stands(s, n, end) ensures Stands(t, n, end) {
      StandsCall(s, name, op, w, n, end);
    }
    RememberedStays(s, t, from);
  }

  lemma {:induction false} AskRemembers(s: State, names: seq<Name>, w: World, from: nat)
    requires AllRemembered(s, from)
    ensures AllRemembered(Ask(s, names, w).state, from)
    decreases |names|
  {
    if names != [] {
      OtherCallRemembers(s, names[0], Capability, w, from);
      AskRemembers(s, names[1..], w, from);
      AskRemembers(Invoked(s, names[0], Capability, w), names[1..], w, from);
    }
  }

  lemma AuxRemembers(s: State, ownModel: bool, auxModel: bool, ls: bool, lf: bool, w: World, from: nat)
    requires Windowed(s) && AllRemembered(s, from) && RespondAux(s, ownModel, auxModel, ls, lf, w).state.resets == s.resets
    ensures AllRemembered(RespondAux(s, ownModel, auxModel, ls, lf, w).state, from)
  {
    if ownModel || !auxModel || Cooling(s, s.active) {
      RespondRemembers(s, ls, lf, w, from);
    } else {
      ProbesRemember(s, [], s.active, from);
      OtherCallRemembers(Probed(s, s.active), s.active, GenerateAux, w, from);
      WindowedCall(Probed(s, s.active), s.active, GenerateAux, w);
      if w(|s.log|, s.active).Failure? {
        RespondRemembers(Invoked(Probed(s, s.active), s.active, GenerateAux, w), ls, lf, w, from);
      }
    }
  }

  lemma QuietStepRemembers(s: State, e: Event, w: World, display: Name -> Name, from: nat)
    requires AllRemembered(s, from) && (e.Tick? || e.Switch?)
    ensures AllRemembered(Apply(s, e, w, display), from)
  {
    forall n, end | Stands(s, n, end) ensures Stands(Apply(s, e, w, display), n, end) {
      StandsStep(s, e, w, display, n, end);
    }
    RememberedStays(s, Apply(s, e, w, display), from);
  }

  lemma StepRemembers(s: State, e: Event, w: World, display: Name -> Name, from: nat)
    requires Windowed(s) && AllRemembered(s, from) && Apply(s, e, w, display).resets == s.resets
    ensures AllRemembered(Apply(s, e, w, display), from)
  {
    match e
    case Request(ls, lf) => RespondRemembers(s, ls, lf, w, from);
    case AuxRequest(own, aux, ls, lf) => AuxRemembers(s, own, aux, ls, lf, w, from);
    case CapabilityRequest(candidates, locked) => AskRemembers(s, Allowed(s, candidates, locked), w, from);
    case _ => QuietStepRemembers(s, e, w, display, from);
  }

  lemma ResetsGrowStep(s: State, e: Event, w: World, display: Name -> Name)
    ensures s.resets <= Apply(s, e, w, display).resets
  {
    StandsStep(s, e, w, display, "", if "" in s.cooldowns then s.cooldowns[""] else s.now);
  }

  lemma {:induction false} RunRemembers(s: State, es: seq<Event>, w: World, display: Name -> Name, from: nat)
    requires Windowed(s) && AllRemembered(s, from) && Run(s, es, w, display).resets == s.resets
    ensures AllRemembered(Run(s, es, w, display), from)
    decreases |es|
  {
    if es != [] {
      ResetsGrowStep(s, es[0], w, display);
      ResetsGrow(Apply(s, es[0], w, display), es[1..], w, display);
      StepRemembers(s, es[0], w, display, from);
      WindowedStep(s, es[0], w, display);
      RunRemembers(Apply(s, es[0], w, display), es[1..], w, display, from);
    }
  }

  /**
   * Every quota failure of a generation call is remembered: short of a reset, the provider is skipped until 30 minutes
   * after that failure, or else until 30 minutes after an earlier one whose window was open when the call began.
   */
  lemma QuotaFailuresAreRemembered(s: State, before: seq<Event>, after: seq<Event>, w: World, display: Name -> Name)
    requires s.cooldowns == map[]
    requires Run(Run(s, before, w, display), after, w, display).resets == Run(s, before, w, display).resets
    ensures AllRemembered(Run(Run(s, before, w, display), after, w, display), |Run(s, before, w, display).log|)
  {
    WindowedRun(s, before, w, display);
    RunRemembers(Run(s, before, w, display), after, w, display, |Run(s, before, w, display).log|);
  }

  /** An unlocked request does not call a cooling active provider while another one can be called, and calls another one. */
  lemma CoolingIsSkipped(s: State, lockedAtFallback: bool, w: World)
    requires Registered(s) && Cooling(s, s.active) && UsableAlternative(s, s.providers)
    ensures var calls := CallsSince(s, Respond(s, false, lockedAtFallback, w).state);
      && (forall i :: 0 <= i < |calls| ==> calls[i].name != s.active)
      && (!lockedAtFallback ==> calls != [])
  {
    var start := AlternativeProbed(s, s.providers);
    AlternativeIsInvisible(s, s.providers, s.active);
    if !lockedAtFallback {
      UnlockedRequest(s, false, w);
      ResetFacts(start, s.active);
      FallbackFacts(Reset(start), s.providers, w);
      assert CallsSince(Reset(start), Respond(s, false, false, w).state) == CallsSince(s, Respond(s, false, false, w).state);
    }
  }

  /** Call i is a quota failure of the active provider, less than 30 minutes old, and came out of no window of an earlier one. */
  ghost predicate FreshFailure(t: State, i: nat) {
    && i < |t.log| && QuotaCall(t.log[i], t.active) && t.now < t.log[i].at + 1_800_000
    && (forall j :: 0 <= j < i && QuotaCall(t.log[j], t.active) ==> t.log[j].at + 1_800_000 <= t.log[i].at - t.log[i].reply.elapsed)
  }

  /**
   * Once the active provider has failed for its quota, every unlocked request of the next 30 minutes that has somebody
   * else to turn to leaves it alone, whatever else was asked meanwhile, short of a reset.
   */
  lemma FailedProviderIsLeftAlone(
    s: State, before: seq<Event>, after: seq<Event>, w: World, display: Name -> Name, i: nat, lockedAtFallback: bool)
    requires s.cooldowns == map[]
    requires var m, t := Run(s, before, w, display), Run(Run(s, before, w, display), after, w, display);
      t.resets == m.resets && |m.log| <= i && FreshFailure(t, i) && Registered(t) && UsableAlternative(t, t.providers)
    ensures var t := Run(Run(s, before, w, display), after, w, display);
      var calls := CallsSince(t, Respond(t, false, lockedAtFallback, w).state);
      && t.active in t.cooldowns && t.cooldowns[t.active] == t.log[i].at + 1_800_000
      && (forall k :: 0 <= k < |calls| ==> calls[k].name != t.active)
      && (!lockedAtFallback ==> calls != [])
  {
    QuotaFailuresAreRemembered(s, before, after, w, display);
    var t := Run(Run(s, before, w, display), after, w, display);
    assert Remembered(t, i);
    var j :| 0 <= j <= i && RememberedBy(t, i, j);
    assert j == i;
    CoolingIsSkipped(t, lockedAtFallback, w);
  }

  // ---------------------------------------------------------------- the clock

  /** How long the logged calls took. */
  function Spent(log: seq<Call>): nat {
    if log == [] then 0 else Spent(log[..|log| - 1]) + log[|log| - 1].reply.elapsed
  }

  /** The time that passes between requests. */
  function Idle(es: seq<Event>): nat {
    if es == [] then 0 else (if es[0].Tick? then es[0].elapsed else 0) + Idle(es[1..])
  }

  /** From s to t no time passed but in calls. */
  ghost predicate OnlyCallsTakeTime(s: State, t: State) {
    t.now - s.now == Spent(t.log) - Spent(s.log)
  }

  lemma CallTakesTime(s: State, name: Name, op: Operation, w: World)
    ensures OnlyCallsTakeTime(s, Invoked(s, name, op, w))
  {
    var t := Invoked(s, name, op, w);
    assert t.log[..|t.log| - 1] == s.log;
  }

  lemma {:induction false} FallbackTakesTime(s: State, names: seq<Name>, w: World)
    ensures OnlyCallsTakeTime(s, Fallback(s, names, w).state)
    decreases |names|
  {
    if names != [] {
      if names[0] == s.active || Cooling(s, names[0]) {
        FallbackTakesTime(s, names[1..], w);
      } else {
        var reply := w(|s.log|, names[0]);
        var called := Invoked(Probed(s, names[0]), names[0], Generate, w);
        CallTakesTime(Probed(s, names[0]), names[0], Generate, w);
        if reply.Failure? {
          FallbackTakesTime(AfterFailure(called, names[0], reply), names[1..], w);
        }
      }
    }
  }

  lemma TryTakesTime(s: State, locked: bool, w: World)
    ensures OnlyCallsTakeTime(s, TryFallback(s, locked, w).state)
  {
    ResetFacts(s, s.active);
    FallbackTakesTime(Reset(s), s.providers, w);
  }

  lemma RespondTakesTime(s: State, ls: bool, lf: bool, w: World)
    ensures OnlyCallsTakeTime(s, Respond(s, ls, lf, w).state)
  {
    AlternativeIsInvisible(s, s.providers, s.active);
    if Cooling(s, s.active) && UsableAlternative(s, s.providers) && !ls {
      TryTakesTime(AlternativeProbed(s, s.providers), lf, w);
    } else {
      var ready := if Cooling(s, s.active) then AlternativeProbed(s, s.providers) else Probed(s, s.active);
      var reply := w(|s.log|, s.active);
      CallTakesTime(ready, s.active, Generate, w);
      if reply.Failure? {
        TryTakesTime(AfterFailure(Invoked(ready, s.active, Generate, w), s.active, reply), lf, w);
      }
    }
  }

  lemma {:induction false} AskTakesTime(s: State, names: seq<Name>, w: World)
    ensures OnlyCallsTakeTime(s, Ask(s, names, w).state)
    decreases |names|
  {
    if names != [] {
      CallTakesTime(s, names[0], Capability, w);
      AskTakesTime(s, names[1..], w);
      AskTakesTime(Invoked(s, names[0], Capability, w), names[1..], w);
    }
  }

  lemma StepTakesTime(s: State, e: Event, w: World, display: Name -> Name)
    ensures Apply(s, e, w, display).now - s.now ==
      Spent(Apply(s, e, w, display).log) - Spent(s.log) + (if e.Tick? then e.elapsed else 0)
  {
    match e
    case Request(ls, lf) => RespondTakesTime(s, ls, lf, w);
    case AuxRequest(own, aux, ls, lf) =>
      RespondTakesTime(s, ls, lf, w);
      CallTakesTime(Probed(s, s.active), s.active, GenerateAux, w);
      RespondTakesTime(Invoked(Probed(s, s.active), s.active, GenerateAux, w), ls, lf, w);
    case CapabilityRequest(candidates, locked) => AskTakesTime(s, Allowed(s, candidates, locked), w);
    case _ =>
  }

  /** Over every run, the time that has passed is what the calls took and what went by between the requests. */
  lemma {:induction false} ClockAddsUp(s: State, es: seq<Event>, w: World, display: Name -> Name)
    ensures Run(s, es, w, display).now - s.now == Spent(Run(s, es, w, display).log) - Spent(s.log) + Idle(es)
    decreases |es|
  {
    if es != [] {
      StepTakesTime(s, es[0], w, display);
      ClockAddsUp(Apply(s, es[0], w, display), es[1..], w, display);
    }
  }

  // ---------------------------------------------------------------- the lock, read twice

  /** With the lock held at the fallback, no more than one call is made, and to the active provider. */
  lemma HeldAtFallback(s: State, lockedAtSkip: bool, w: World)
    ensures var r := Respond(s, lockedAtSkip, true, w);
      OnlyActive(s, r.state) && |CallsSince(s, r.state)| <= 1 && FirstSuccess(CallsSince(s, r.state), r.reply)
  {
    AlternativeIsInvisible(s, s.providers, s.active);
    var r := Respond(s, lockedAtSkip, true, w);
    if Cooling(s, s.active) && UsableAlternative(s, s.providers) && !lockedAtSkip {
      assert CallsSince(s, r.state) == [];
    } else {
      assert CallsSince(s, r.state) == [r.state.log[|s.log|]];
    }
  }

  lemma CallsActiveFirst(s: State, ls: bool, lf: bool, w: World)
    requires Registered(s) && !(Cooling(s, s.active) && UsableAlternative(s, s.providers) && !ls)
    ensures s.log < Respond(s, ls, lf, w).state.log
  {
    AlternativeIsInvisible(s, s.providers, s.active);
    var ready := if Cooling(s, s.active) then AlternativeProbed(s, s.providers) else Probed(s, s.active);
    var reply := w(|s.log|, s.active);
    var called := Invoked(ready, s.active, Generate, w);
    if reply.Failure? {
      var start := AfterFailure(called, s.active, reply);
      ResetFacts(start, s.active);
      FallbackFacts(Reset(start), s.providers, w);
    }
  }

  /** A request that makes no call at all: exactly when the lock closes between a skip and the fallback it was for. */
  lemma SilentRequestExactly(s: State, lockedAtSkip: bool, lockedAtFallback: bool, w: World)
    requires Registered(s)
    ensures Respond(s, lockedAtSkip, lockedAtFallback, w).state.log == s.log
      <==> (Cooling(s, s.active) && UsableAlternative(s, s.providers) && !lockedAtSkip && lockedAtFallback)
  {
    if !(Cooling(s, s.active) && UsableAlternative(s, s.providers) && !lockedAtSkip) {
      CallsActiveFirst(s, lockedAtSkip, lockedAtFallback, w);
    } else if lockedAtFallback {
      AlternativeIsInvisible(s, s.providers, s.active);
    } else {
      UnlockedRequest(s, false, w);
    }
  }

  /** The lock is read as held throughout, and nobody forces a switch. */
  predicate HeldLock(e: Event) {
    match e
    case Tick(_) => true
    case Request(ls, lf) => ls && lf
    case AuxRequest(_, _, ls, lf) => ls && lf
    case CapabilityRequest(_, locked) => locked
    case Switch(_, force, locked) => locked && !force
  }

  /** The selection stands, and every generation call went to it. */
  ghost predicate Loyal(s: State, t: State) {
    && Continues(s, t)
    && forall i :: |s.log| <= i < |t.log| ==> t.log[i].operation == Capability || t.log[i].name == s.active
  }

  lemma LoyalStep(s: State, e: Event, w: World, display: Name -> Name)
    requires HeldLock(e) && (display(s.active) == s.active || display(s.active) !in s.providers)
    ensures Loyal(s, Apply(s, e, w, display))
  {
    NewCalls(s, Apply(s, e, w, display));
    match e
    case Request(_, _) => LockedRequest(s, w);
    case AuxRequest(own, aux, _, _) => LockedAuxRequest(s, own, aux, w);
    case CapabilityRequest(candidates, _) => AskGivesFirstAnswer(s, Allowed(s, candidates, true), w);
    case _ =>
  }

  lemma NewCalls(s: State, t: State)
    ensures s.log <= t.log ==> forall i :: |s.log| <= i < |t.log| ==> t.log[i] == CallsSince(s, t)[i - |s.log|]
  {
  }

  /** However long the lock is held, when the active provider does not display another one's registry name. */
  lemma {:induction false} LoyalRun(s: State, es: seq<Event>, w: World, display: Name -> Name)
    requires forall i :: 0 <= i < |es| ==> HeldLock(es[i])
    requires display(s.active) == s.active || display(s.active) !in s.providers
    ensures Loyal(s, Run(s, es, w, display))
    decreases |es|
  {
    if es != [] {
      LoyalStep(s, es[0], w, display);
      LoyalRun(Apply(s, es[0], w, display), es[1..], w, display);
    }
  }

  ghost predicate Held(es: seq<Event>) {
    forall i :: 0 <= i < |es| ==> HeldLock(es[i])
  }

  /**
   * However long the lock is held and whatever is asked: no unforced event moves the selection, and no generation
   * call, auxiliary ones included, is spent on another provider, exactly when the active provider does not display
   * another one's registry name. With the shipped names it never does (ShippedLockHolds).
   */
  lemma {:induction false} LockedRun(s: State, w: World, display: Name -> Name)
    ensures (forall es: seq<Event> :: Held(es) ==> Loyal(s, Run(s, es, w, display)))
      <==> (display(s.active) == s.active || display(s.active) !in s.providers)
  {
    if display(s.active) == s.active || display(s.active) !in s.providers {
      forall es: seq<Event> | Held(es) ensures Loyal(s, Run(s, es, w, display)) {
        LoyalRun(s, es, w, display);
      }
    } else {
      var es := [Switch(display(s.active), false, true)];
      assert Held(es) && es[1..] == [];
      assert Run(s, es, w, display) == Apply(s, es[0], w, display);
      assert !Loyal(s, Run(s, es, w, display));
    }
  }

  // ---------------------------------------------------------------- the manager's fields

  /** getCurrentProvider: the selected provider, else the first registered one, else none. */
  function Current(active: Option<Name>, providers: seq<Name>): Option<Name> {
    if active.Some? then active else if providers != [] then Some(providers[0]) else None
  }

  class ProviderManager {
    const providers: seq<Name>
    var activeProvider: Option<Name>
    var quotaCooldowns: map<Name, int>
    var lockedFallbackBlocks: nat
    var now: int
    var log: seq<Call>
    ghost var resets: nat

    ghost function Snapshot(active: Name): State
      reads this
    {
      State(providers, active, quotaCooldowns, now, lockedFallbackBlocks, log, resets)
    }

    constructor (providers: seq<Name>, active: Option<Name>, now: int)
      ensures this.providers == providers && activeProvider == active && quotaCooldowns == map[] && log == []
    {
      this.providers, this.activeProvider, this.now := providers, active, now;
      quotaCooldowns, lockedFallbackBlocks, log, resets := map[], 0, [], 0;
    }

    method IsCoolingDown(name: Name) returns (cooling: bool)
      modifies this`quotaCooldowns
      ensures forall a :: cooling == Cooling(old(Snapshot(a)), name) && Snapshot(a) == Probed(old(Snapshot(a)), name)
    {
      if name !in quotaCooldowns {
        return false;
      }
      if now >= quotaCooldowns[name] {
        quotaCooldowns := quotaCooldowns - {name};
        return false;
      }
      return true;
    }

    method MarkQuotaExhausted(name: Name)
      modifies this`quotaCooldowns
      ensures forall a :: Snapshot(a) == Marked(old(Snapshot(a)), name)
    {
      if name in quotaCooldowns {
        return;
      }
      quotaCooldowns := quotaCooldowns[name := now + COOLDOWN_MS];
    }

    /** retryOperation around one provider call: the reply is the world's. */
    method CallProvider(name: Name, op: Operation, w: World) returns (reply: Reply)
      modifies this`now, this`log
      ensures reply == w(|old(log)|, name)
      ensures forall a :: Snapshot(a) == Invoked(old(Snapshot(a)), name, op, w)
    {
      reply := w(|log|, name);
      now := now + reply.elapsed;
      log := log + [Call(name, op, reply, now)];
    }

    method HasUsableAlternative(active: Name) returns (usable: bool)
      modifies this`quotaCooldowns
      ensures usable == UsableAlternative(old(Snapshot(active)), providers)
      ensures Snapshot(active) == AlternativeProbed(old(Snapshot(active)), providers)
    {
      var i := 0;
      while i < |providers|
        invariant i <= |providers| && quotaCooldowns == old(quotaCooldowns)
        invariant forall k :: 0 <= k < i ==> providers[k] == active || Cooling(Snapshot(active), providers[k])
        invariant AlternativeProbed(Snapshot(active), providers) == AlternativeProbed(Snapshot(active), providers[i..])
      {
        if providers[i] != active {
          ghost var was := Snapshot(active);
          var cooling := IsCoolingDown(providers[i]);
          if !cooling {
            return true;
          }
          assert Probed(was, providers[i]) == was;
        }
        i := i + 1;
      }
      return false;
    }

    method EveryoneIsCoolingDown(ghost active: Name) returns (all: bool)
      modifies this`quotaCooldowns
      ensures all == AllCooling(old(Snapshot(active)), providers)
      ensures Snapshot(active) == EveryProbed(old(Snapshot(active)), providers)
    {
      var i := 0;
      while i < |providers|
        invariant i <= |providers| && quotaCooldowns == old(quotaCooldowns)
        invariant forall k :: 0 <= k < i ==> Cooling(Snapshot(active), providers[k])
        invariant EveryProbed(Snapshot(active), providers) == EveryProbed(Snapshot(active), providers[i..])
      {
        ghost var was := Snapshot(active);
        var cooling := IsCoolingDown(providers[i]);
        if !cooling {
          return false;
        }
        assert Probed(was, providers[i]) == was;
        i := i + 1;
      }
      return true;
    }

    method TryFallbackProviders(active: Name, locked: bool, w: World) returns (reply: Option<string>)
      modifies this`quotaCooldowns, this`lockedFallbackBlocks, this`now, this`log, this`resets
      ensures Result(Snapshot(active), reply) == TryFallback(old(Snapshot(active)), locked, w)
    {
      if locked {
        lockedFallbackBlocks := lockedFallbackBlocks + 1;
        return None;
      }
      var all := EveryoneIsCoolingDown(active);
      if all {
        quotaCooldowns := map[];
        resets := resets + 1;
      }
      ghost var start := Snapshot(active);
      var i := 0;
      while i < |providers|
        invariant i <= |providers|
        invariant Fallback(start, providers, w) == Fallback(Snapshot(active), providers[i..], w)
      {
        var name := providers[i];
        i := i + 1;
        if name == active {
          continue;
        }
        ghost var was := Snapshot(active);
        var cooling := IsCoolingDown(name);
        if cooling {
          assert Probed(was, name) == was;
          continue;
        }
        var r := CallProvider(name, Generate, w);
        if r.Answer? {
          return Some(r.text);
        }
        if r.quota {
          MarkQuotaExhausted(name);
        }
      }
      return None;
    }

    method GetCurrentProvider() returns (current: Option<Name>)
      modifies this`activeProvider
      ensures current == activeProvider == Current(old(activeProvider), providers)
      ensures old(activeProvider).Some? ==> current == old(activeProvider)
      ensures old(activeProvider).None? ==> current == if |providers| > 0 then Some(providers[0]) else None
    {
      if activeProvider.None? && |providers| > 0 {
        activeProvider := Some(providers[0]);
      }
      current := activeProvider;
    }

    method GenerateResponse(lockedAtSkip: bool, lockedAtFallback: bool, w: World) returns (reply: Option<string>)
      modifies this
      ensures activeProvider == Current(old(activeProvider), providers)
      ensures activeProvider.None? ==> reply == None && log == old(log)
      ensures forall a :: activeProvider == Some(a) ==>
        Result(Snapshot(a), reply) == Respond(old(Snapshot(a)), lockedAtSkip, lockedAtFallback, w)
    {
      var current := GetCurrentProvider();
      if current.None? {
        return None;
      }
      var active := current.value;
      var cooling := IsCoolingDown(active);
      if cooling {
        var usable := HasUsableAlternative(active);
        if usable && !lockedAtSkip {
          reply := TryFallbackProviders(active, lockedAtFallback, w);
          return;
        }
      }
      var r := CallProvider(active, Generate, w);
      if r.Answer? {
        return Some(r.text);
      }
      if r.quota {
        MarkQuotaExhausted(active);
      }
      reply := TryFallbackProviders(active, lockedAtFallback, w);
    }

    method GenerateAuxResponse(ownModel: bool, auxModel: bool, lockedAtSkip: bool, lockedAtFallback: bool, w: World)
      returns (reply: Option<string>)
      modifies this
      ensures activeProvider == Current(old(activeProvider), providers)
      ensures activeProvider.None? ==> reply == None && log == old(log)
      ensures forall a :: activeProvider == Some(a) ==>
        Result(Snapshot(a), reply) == RespondAux(old(Snapshot(a)), ownModel, auxModel, lockedAtSkip, lockedAtFallback, w)
    {
      if ownModel {
        reply := GenerateResponse(lockedAtSkip, lockedAtFallback, w);
        return;
      }
      var current := GetCurrentProvider();
      if current.None? {
        return None;
      }
      var active := current.value;
      if !auxModel {
        reply := GenerateResponse(lockedAtSkip, lockedAtFallback, w);
        return;
      }
      ghost var was := Snapshot(active);
      var cooling := IsCoolingDown(active);
      if cooling {
        assert Probed(was, active) == was;
        reply := GenerateResponse(lockedAtSkip, lockedAtFallback, w);
        return;
      }
      var r := CallProvider(active, GenerateAux, w);
      if r.Answer? {
        return Some(r.text);
      }
      reply := GenerateResponse(lockedAtSkip, lockedAtFallback, w);
    }

    /** The loop shared by generateEmbedding and generateSpeech. */
    method AskInTurn(names: seq<Name>, w: World, ghost active: Name) returns (reply: Option<string>)
      modifies this`now, this`log
      ensures Result(Snapshot(active), reply) == Ask(old(Snapshot(active)), names, w)
    {
      ghost var start := Snapshot(active);
      var i := 0;
      while i < |names|
        invariant i <= |names|
        invariant Ask(start, names, w) == Ask(Snapshot(active), names[i..], w)
      {
        assert names[i..][1..] == names[i + 1..];
        if names[i] in providers {
          var r := CallProvider(names[i], Capability, w);
          if r.Answer? && r.text != "" {
            return Some(r.text);
          }
        }
        i := i + 1;
      }
      return None;
    }

    /** providerNameOf(this.activeProvider): without a selection it is the word "unknown". */
    function ActiveName(): Name
      reads this`activeProvider
    {
      if activeProvider.Some? then activeProvider.value else "unknown"
    }

    method ServeCapability(candidates: seq<Name>, locked: bool, w: World) returns (reply: Option<string>)
      modifies this`now, this`log
      ensures Result(Snapshot(ActiveName()), reply) == Serve(old(Snapshot(ActiveName())), candidates, locked, w)
    {
      var names := candidates;
      if locked && ActiveName() in candidates {
        names := Only(candidates, ActiveName());
      }
      reply := AskInTurn(names, w, ActiveName());
    }

    /** UnknownName is the exception; a blocked switch returns without one, and the first selection is never blocked. */
    method SwitchProvider(name: Name, force: bool, locked: bool, display: Name -> Name) returns (outcome: SwitchOutcome)
      modifies this`activeProvider
      ensures forall a :: old(activeProvider) == Some(a) ==>
        && outcome == SwitchGate(old(Snapshot(a)), name, force, locked, display)
        && activeProvider == Some(Switched(old(Snapshot(a)), name, force, locked, display).active)
      ensures old(activeProvider).None? ==>
        outcome == (if name in providers then Performed else UnknownName) && activeProvider == if name in providers then Some(name) else None
    {
      if !force && activeProvider.Some? && display(activeProvider.value) != name && locked {
        return Blocked;
      }
      if name !in providers {
        return UnknownName;
      }
      activeProvider := Some(name);
      return Performed;
    }
  }
}
