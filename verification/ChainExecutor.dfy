/**
 * The bounded multi-step executor: one chain's loop over its steps, the registry of running chains under any
 * interleaving of their awaits, and the choice of "the most recent step" that an email step makes from string keys.
 */
module ChainExecutor {
  import opened Prelude

  const MAX_STEPS := 5
  const MAX_CONCURRENT_CHAINS := 3

  type Data = string

  /** The flags of a plan step the executor reads; `required` is `step.required !== false`. */
  datatype PlanStep = PlanStep(plugin: string, passDataToNext: bool, required: bool)

  /** What the race between a step and its timeout gives back: the step's own report, or the timeout's rejection. */
  datatype Outcome =
    | Returned(success: bool, result: Data, outputData: map<string, Data>)
    | Threw

  datatype StepRecord = StepRecord(stepNumber: nat, success: bool)

  predicate Succeeded(o: Outcome) {
    o.Returned? && o.success
  }

  predicate Stops(step: PlanStep, o: Outcome) {
    o.Threw? || (!o.success && step.required)
  }

  predicate Passes(step: PlanStep, o: Outcome) {
    step.passDataToNext && Succeeded(o)
  }

  function StepKey(n: nat): string {
    "step" + Dec(n)
  }

  /** The data later steps may use once the given outcomes are in: each passing step adds its result, then its extracts. */
  function SharedAfter(steps: seq<PlanStep>, outcomes: seq<Outcome>): map<string, Data>
    requires |outcomes| <= |steps|
  {
    if outcomes == [] then map[] else
      var n := |outcomes|;
      var before := SharedAfter(steps, outcomes[..n - 1]);
      var o := outcomes[n - 1];
      if Passes(steps[n - 1], o) then before[StepKey(n) := o.result] + o.outputData else before
  }

  lemma SharedAfterSnoc(steps: seq<PlanStep>, outcomes: seq<Outcome>, o: Outcome)
    requires |outcomes| < |steps|
    ensures SharedAfter(steps, outcomes + [o]) ==
      if Passes(steps[|outcomes|], o)
      then SharedAfter(steps, outcomes)[StepKey(|outcomes| + 1) := o.result] + o.outputData
      else SharedAfter(steps, outcomes)
  {
    assert (outcomes + [o])[..|outcomes|] == outcomes;
  }

  ghost predicate AllSucceeded(outcomes: seq<Outcome>) {
    forall o :: o in outcomes ==> Succeeded(o)
  }

  // ---------------------------------------------------------------- one chain

  /** A chain in progress. `outcomes` lists what its awaits have returned so far. */
  datatype Chain = Chain(
    steps: seq<PlanStep>,
    outcomes: seq<Outcome>,
    results: seq<StepRecord>,
    sharedData: map<string, Data>,
    overallSuccess: bool,
    stopped: bool)

  function NewChain(steps: seq<PlanStep>): Chain {
    Chain(steps, [], [], map[], true, false)
  }

  predicate Done(c: Chain) {
    c.stopped || |c.results| >= |c.steps|
  }

  /** One turn of the loop, from the end of a step's await. */
  function Record(c: Chain, o: Outcome): Chain
    requires !Done(c)
  {
    var step := c.steps[|c.results|];
    var n := |c.results| + 1;
    var d := c.(outcomes := c.outcomes + [o]);
    match o
    case Threw =>
      d.(results := c.results + [StepRecord(n, false)], overallSuccess := false, stopped := true)
    case Returned(success, result, outputData) =>
      var e := d.(results := c.results + [StepRecord(n, success)]);
      var f := if step.passDataToNext && success
               then e.(sharedData := e.sharedData[StepKey(n) := result] + outputData) else e;
      if success then f else f.(overallSuccess := false, stopped := step.required)
  }

  /** What a chain's bookkeeping says about the outcomes it has seen. */
  ghost predicate Faithful(c: Chain) {
    && |c.outcomes| == |c.results| <= |c.steps|
    && (forall i :: 0 <= i < |c.results| ==> c.results[i] == StepRecord(i + 1, Succeeded(c.outcomes[i])))
    && (forall i :: 0 <= i < |c.results| - 1 ==> !Stops(c.steps[i], c.outcomes[i]))
    && (c.stopped <==> c.results != [] && Stops(c.steps[|c.results| - 1], c.outcomes[|c.results| - 1]))
    && (c.overallSuccess <==> AllSucceeded(c.outcomes))
  }

  ghost predicate SharedFaithful(c: Chain) {
    && |c.outcomes| == |c.results| <= |c.steps|
    && c.sharedData == SharedAfter(c.steps, c.outcomes)
  }

  lemma RecordFaithful(c: Chain, o: Outcome)
    requires Faithful(c) && !Done(c)
    ensures Faithful(Record(c, o)) && Record(c, o).steps == c.steps
  {
    var d := Record(c, o);
    var n := |c.results|;
    assert d.steps == c.steps && d.outcomes == c.outcomes + [o] && d.results == c.results + [StepRecord(n + 1, Succeeded(o))];
    assert d.stopped == Stops(c.steps[n], o);
    assert d.overallSuccess == (c.overallSuccess && Succeeded(o));
    AllSucceededSnoc(c.outcomes, o);
  }

  lemma AllSucceededSnoc(outcomes: seq<Outcome>, o: Outcome)
    ensures AllSucceeded(outcomes + [o]) == (AllSucceeded(outcomes) && Succeeded(o))
  {
    assert forall x :: x in outcomes + [o] <==> x in outcomes || x == o;
  }

  lemma RecordSharedFaithful(c: Chain, o: Outcome)
    requires SharedFaithful(c) && !Done(c)
    ensures SharedFaithful(Record(c, o)) && Record(c, o).steps == c.steps
  {
    SharedAfterSnoc(c.steps, c.outcomes, o);
  }

  /** The chain run to its end, the awaits returning these outcomes. */
  function Finish(c: Chain, outcomes: seq<Outcome>): Chain
    decreases |outcomes|
  {
    if Done(c) || outcomes == [] then c else Finish(Record(c, outcomes[0]), outcomes[1..])
  }

  lemma {:induction false} FinishKeeps(c: Chain, outcomes: seq<Outcome>, kept: Chain -> bool)
    requires kept(c) && forall d, o :: kept(d) && !Done(d) ==> kept(Record(d, o))
    ensures kept(Finish(c, outcomes))
    decreases |outcomes|
  {
    if !Done(c) && outcomes != [] {
      FinishKeeps(Record(c, outcomes[0]), outcomes[1..], kept);
    }
  }

  lemma {:induction false} FinishEnds(c: Chain, outcomes: seq<Outcome>)
    requires |c.steps| <= |c.results| + |outcomes|
    ensures var d := Finish(c, outcomes); Done(d) && d.steps == c.steps && d.outcomes <= c.outcomes + outcomes
    decreases |outcomes|
  {
    if !Done(c) {
      FinishEnds(Record(c, outcomes[0]), outcomes[1..]);
      assert c.outcomes + [outcomes[0]] + outcomes[1..] == c.outcomes + outcomes;
    }
  }

  lemma FinishFaithful(steps: seq<PlanStep>, outcomes: seq<Outcome>)
    ensures Faithful(Finish(NewChain(steps), outcomes)) && SharedFaithful(Finish(NewChain(steps), outcomes))
  {
    var kept := (c: Chain) => Faithful(c) && SharedFaithful(c);
    forall c, o | kept(c) && !Done(c) ensures kept(Record(c, o)) {
      RecordFaithful(c, o);
      RecordSharedFaithful(c, o);
    }
    FinishKeeps(NewChain(steps), outcomes, kept);
  }

  /** What a finished chain reports of the outcomes of all its steps, run or not. */
  ghost predicate Reports(c: Chain, steps: seq<PlanStep>, outcomes: seq<Outcome>)
    requires |outcomes| == |steps|
  {
    && |c.results| <= |steps|
    && (forall i :: 0 <= i < |c.results| ==> c.results[i] == StepRecord(i + 1, Succeeded(outcomes[i])))
    && (forall i :: 0 <= i < |c.results| - 1 ==> !Stops(steps[i], outcomes[i]))
    && (|c.results| < |steps| ==> c.results != [] && Stops(steps[|c.results| - 1], outcomes[|c.results| - 1]))
    && (c.overallSuccess <==> AllSucceeded(outcomes))
    && c.sharedData == SharedAfter(steps, outcomes[..|c.results|])
  }

  lemma ReportOf(c: Chain, outcomes: seq<Outcome>)
    requires Faithful(c) && SharedFaithful(c) && Done(c) && |outcomes| == |c.steps| && c.outcomes == outcomes[..|c.outcomes|]
    ensures Reports(c, c.steps, outcomes)
  {
    if |c.results| < |c.steps| {
      assert outcomes[|c.results| - 1] in outcomes && outcomes[|c.results| - 1] in c.outcomes;
    } else {
      assert c.outcomes == outcomes;
    }
  }

  lemma FinalReport(steps: seq<PlanStep>, outcomes: seq<Outcome>)
    requires |outcomes| == |steps|
    ensures Reports(Finish(NewChain(steps), outcomes), steps, outcomes)
  {
    FinishEnds(NewChain(steps), outcomes);
    FinishFaithful(steps, outcomes);
    ReportOf(Finish(NewChain(steps), outcomes), outcomes);
  }

  /** The body of the loop: what one outcome does to the running results. */
  method TakeOutcome(c: Chain, o: Outcome) returns (results: seq<StepRecord>, sharedData: map<string, Data>, overallSuccess: bool, stopped: bool)
    requires !Done(c)
    ensures Record(c, o) == Chain(c.steps, c.outcomes + [o], results, sharedData, overallSuccess, stopped)
  {
    results, sharedData, overallSuccess, stopped := c.results, c.sharedData, c.overallSuccess, false;
    var step, n := c.steps[|c.results|], |c.results| + 1;
    if o.Threw? {
      results, overallSuccess, stopped := results + [StepRecord(n, false)], false, true;
      return;
    }
    results := results + [StepRecord(n, o.success)];
    if step.passDataToNext && o.success {
      sharedData := sharedData[StepKey(n) := o.result] + o.outputData;
    }
    if !o.success {
      overallSuccess, stopped := false, step.required;
    }
  }

  /** The loop itself: turn by turn, from a chain that has not begun to one that is done. */
  method RunSteps(steps: seq<PlanStep>, outcomes: seq<Outcome>) returns (c: Chain)
    requires |outcomes| == |steps|
    ensures c == Finish(NewChain(steps), outcomes)
  {
    c := NewChain(steps);
    var i := 0;
    while i < |steps| && !c.stopped
      invariant i == |c.results| <= |steps| && c.steps == steps
      invariant Finish(c, outcomes[i..]) == Finish(NewChain(steps), outcomes)
      decreases |steps| - i
    {
      var results, sharedData, overallSuccess, stopped := TakeOutcome(c, outcomes[i]);
      c := Chain(steps, c.outcomes + [outcomes[i]], results, sharedData, overallSuccess, stopped);
      i := i + 1;
    }
  }

  /**
   * The loop of executeChain for outcomes fixed in advance: results are steps 1..k with no gap, it ends early only
   * at a step that threw or failed while required, and success means every step ran and succeeded.
   */
  method ExecuteSteps(steps: seq<PlanStep>, outcomes: seq<Outcome>)
    returns (results: seq<StepRecord>, sharedData: map<string, Data>, overallSuccess: bool)
    requires |outcomes| == |steps|
    ensures |results| <= |steps|
    ensures forall i :: 0 <= i < |results| ==> results[i] == StepRecord(i + 1, Succeeded(outcomes[i]))
    ensures forall i :: 0 <= i < |results| - 1 ==> !Stops(steps[i], outcomes[i])
    ensures |results| < |steps| ==> results != [] && Stops(steps[|results| - 1], outcomes[|results| - 1])
    ensures overallSuccess <==> AllSucceeded(outcomes)
    ensures sharedData == SharedAfter(steps, outcomes[..|results|])
  {
    var c := RunSteps(steps, outcomes);
    FinalReport(steps, outcomes);
    return c.results, c.sharedData, c.overallSuccess;
  }

  // ---------------------------------------------------------------- many chains

  type ChainId = nat

  datatype StartError = InvalidSteps | TooManySteps | TooManyChains

  datatype Processor = Processor(
    activeChains: map<ChainId, Chain>,
    started: set<ChainId>,
    removed: seq<ChainId>,
    reports: map<ChainId, Chain>)

  const IDLE := Processor(map[], {}, [], map[])

  datatype Event = Start(id: ChainId, steps: seq<PlanStep>) | StepEnds(id: ChainId, outcome: Outcome) | Finish(id: ChainId)

  /** Why a call to executeChain throws before registering anything. */
  function Refusal(p: Processor, steps: seq<PlanStep>): Option<StartError> {
    if |steps| == 0 then Some(InvalidSteps)
    else if |steps| > MAX_STEPS then Some(TooManySteps)
    else if |p.activeChains| >= MAX_CONCURRENT_CHAINS then Some(TooManyChains)
    else None
  }

  /** Chain ids are never reused; a step ends in a running chain; a chain finishes when its loop is over. */
  predicate Enabled(p: Processor, e: Event) {
    match e
    case Start(id, steps) => id !in p.started
    case StepEnds(id, o) => id in p.activeChains && !Done(p.activeChains[id])
    case Finish(id) => id in p.activeChains && Done(p.activeChains[id])
  }

  function Apply(p: Processor, e: Event): Processor
    requires Enabled(p, e)
  {
    match e
    case Start(id, steps) =>
      if Refusal(p, steps).Some? then p
      else p.(activeChains := p.activeChains[id := NewChain(steps)], started := p.started + {id})
    case StepEnds(id, o) =>
      p.(activeChains := p.activeChains[id := Record(p.activeChains[id], o)])
    case Finish(id) =>
      p.(activeChains := p.activeChains - {id}, removed := p.removed + [id], reports := p.reports[id := p.activeChains[id]])
  }

  predicate Interleaving(p: Processor, es: seq<Event>)
    decreases |es|
  {
    es == [] || (Enabled(p, es[0]) && Interleaving(Apply(p, es[0]), es[1..]))
  }

  function Run(p: Processor, es: seq<Event>): Processor
    requires Interleaving(p, es)
    decreases |es|
  {
    if es == [] then p else Run(Apply(p, es[0]), es[1..])
  }

  /** Every chain registered so far is either still registered or was removed exactly once. */
  ghost predicate Ledger(p: Processor) {
    && NoDuplicates(p.removed)
    && (forall id :: id in p.started <==> id in p.activeChains || id in p.removed)
    && (forall id :: id in p.removed ==> id !in p.activeChains)
    && (forall id :: id in p.removed ==> id in p.reports)
  }

  ghost predicate Sound(c: Chain) {
    Faithful(c) && SharedFaithful(c) && 1 <= |c.steps| <= MAX_STEPS
  }

  lemma RecordSound(c: Chain, o: Outcome)
    requires Sound(c) && !Done(c)
    ensures Sound(Record(c, o))
  {
    RecordFaithful(c, o);
    RecordSharedFaithful(c, o);
  }

  ghost predicate ChainsSound(p: Processor) {
    && (forall id :: id in p.activeChains ==> Sound(p.activeChains[id]))
    && (forall id :: id in p.reports ==> Sound(p.reports[id]) && Done(p.reports[id]))
  }

  lemma LimitStep(p: Processor, e: Event)
    requires |p.activeChains| <= MAX_CONCURRENT_CHAINS && Enabled(p, e)
    ensures |Apply(p, e).activeChains| <= MAX_CONCURRENT_CHAINS
  {
    match e
    case Start(id, steps) => MapSizes(p.activeChains, id, NewChain(steps));
    case StepEnds(id, o) => MapSizes(p.activeChains, id, Record(p.activeChains[id], o));
    case Finish(id) => MapSizes(p.activeChains, id, p.activeChains[id]);
  }

  lemma LedgerStep(p: Processor, e: Event)
    requires Ledger(p) && Enabled(p, e)
    ensures Ledger(Apply(p, e))
  {
    if e.Finish? {
      assert forall k :: k in p.removed + [e.id] <==> k in p.removed || k == e.id;
      NoDuplicatesSnoc(p.removed, e.id);
    }
  }

  lemma NewChainSound(steps: seq<PlanStep>)
    requires 1 <= |steps| <= MAX_STEPS
    ensures Sound(NewChain(steps))
  {
  }

  /** An event leaves a registered chain as it was, registers a new one, or records one outcome. */
  lemma TouchedChain(p: Processor, e: Event, id: ChainId)
    requires Enabled(p, e) && id in Apply(p, e).activeChains
    ensures var d := Apply(p, e).activeChains[id];
      || (id in p.activeChains && d == p.activeChains[id])
      || (e.Start? && 1 <= |e.steps| <= MAX_STEPS && d == NewChain(e.steps))
      || (e.StepEnds? && e.id == id && id in p.activeChains && !Done(p.activeChains[id]) && d == Record(p.activeChains[id], e.outcome))
  {
  }

  lemma ActiveSoundStep(p: Processor, e: Event, id: ChainId)
    requires ChainsSound(p) && Enabled(p, e) && id in Apply(p, e).activeChains
    ensures Sound(Apply(p, e).activeChains[id])
  {
    TouchedChain(p, e, id);
    if e.Start? && Apply(p, e).activeChains[id] == NewChain(e.steps) && 1 <= |e.steps| <= MAX_STEPS {
      NewChainSound(e.steps);
    } else if e.StepEnds? && e.id == id && id in p.activeChains {
      RecordSound(p.activeChains[id], e.outcome);
    }
  }

  lemma ChainsSoundStep(p: Processor, e: Event)
    requires ChainsSound(p) && Enabled(p, e)
    ensures ChainsSound(Apply(p, e))
  {
    forall id | id in Apply(p, e).activeChains ensures Sound(Apply(p, e).activeChains[id]) {
      ActiveSoundStep(p, e, id);
    }
  }

  ghost predicate Orderly(p: Processor) {
    |p.activeChains| <= MAX_CONCURRENT_CHAINS && Ledger(p) && ChainsSound(p)
  }

  lemma {:induction false} OrderlyRun(p: Processor, es: seq<Event>)
    requires Orderly(p) && Interleaving(p, es)
    ensures Orderly(Run(p, es))
    decreases |es|
  {
    if es != [] {
      LimitStep(p, es[0]);
      LedgerStep(p, es[0]);
      ChainsSoundStep(p, es[0]);
      OrderlyRun(Apply(p, es[0]), es[1..]);
    }
  }

  /**
   * What the caller of executeChain is told: steps 1..k, cut short only by a stopping step, success iff all went well;
   * and what its steps could share is what its own passing steps contributed.
   */
  ghost predicate ExactReport(c: Chain) {
    && |c.results| == |c.outcomes| <= |c.steps|
    && (forall i :: 0 <= i < |c.results| ==> c.results[i] == StepRecord(i + 1, Succeeded(c.outcomes[i])))
    && (|c.results| < |c.steps| ==>
          c.results != [] && Stops(c.steps[|c.results| - 1], c.outcomes[|c.results| - 1]))
    && (forall i :: 0 <= i < |c.results| - 1 ==> !Stops(c.steps[i], c.outcomes[i]))
    && (c.overallSuccess <==>
          |c.results| == |c.steps| && forall i :: 0 <= i < |c.results| ==> c.results[i].success)
    && c.sharedData == SharedAfter(c.steps, c.outcomes)
  }

  lemma DoneIsExact(c: Chain)
    requires Faithful(c) && SharedFaithful(c) && Done(c)
    ensures ExactReport(c)
  {
    assert forall i :: 0 <= i < |c.results| ==> c.results[i].success == Succeeded(c.outcomes[i]);
    if |c.results| < |c.steps| {
      assert !Succeeded(c.outcomes[|c.results| - 1]);
    }
  }

  /**
   * In every interleaving at most three chains are registered, every chain ever registered is either still registered
   * or was removed exactly once, and what a removed chain reported is exact.
   */
  lemma ChainsInEveryInterleaving(es: seq<Event>)
    requires Interleaving(IDLE, es)
    ensures var p := Run(IDLE, es);
      && |p.activeChains| <= MAX_CONCURRENT_CHAINS
      && NoDuplicates(p.removed)
      && (forall id :: id in p.started ==> (id in p.activeChains <==> id !in p.removed))
      && (forall id :: id in p.removed ==> id in p.started && id in p.reports && ExactReport(p.reports[id]))
  {
    OrderlyRun(IDLE, es);
    var p := Run(IDLE, es);
    forall id | id in p.removed ensures id in p.reports && ExactReport(p.reports[id]) {
      DoneIsExact(p.reports[id]);
    }
  }

  /** The chains that runs so far have started and not removed. */
  ghost predicate RunningSet(p: Processor, ids: set<ChainId>) {
    forall id :: id in ids <==> id in p.started && id !in p.removed
  }

  /** A request accepted with one to five steps and fewer than three chains running, or refused for the first reason that applies. */
  ghost predicate StartsLike(p: Processor, q: Processor, id: ChainId, steps: seq<PlanStep>, running: nat) {
    if 1 <= |steps| <= 5 && running < 3 then
      && Refusal(p, steps) == None
      && q.activeChains == p.activeChains[id := Chain(steps, [], [], map[], true, false)]
      && q.started == p.started + {id} && q.removed == p.removed
    else
      && q == p
      && Refusal(p, steps) == Some(if steps == [] then InvalidSteps else if |steps| > 5 then TooManySteps else TooManyChains)
  }

  /**
   * In every interleaving, a request to start is accepted iff its plan has one to five steps and fewer than three chains
   * are running, and then the chain is registered as it was asked for with nothing done yet; a refused request changes
   * nothing and is told the first reason that applies.
   */
  lemma StartsExactly(es: seq<Event>, id: ChainId, steps: seq<PlanStep>, running: set<ChainId>)
    requires Interleaving(IDLE, es) && Enabled(Run(IDLE, es), Start(id, steps)) && RunningSet(Run(IDLE, es), running)
    ensures StartsLike(Run(IDLE, es), Apply(Run(IDLE, es), Start(id, steps)), id, steps, |running|)
  {
    OrderlyRun(IDLE, es);
    StillRunning(Run(IDLE, es), running);
  }

  lemma StillRunning(p: Processor, running: set<ChainId>)
    requires Ledger(p) && RunningSet(p, running)
    ensures |running| == |p.activeChains|
  {
    assert running == p.activeChains.Keys;
  }

  /** The outcomes that one chain received in a run. */
  function OutcomesOf(es: seq<Event>, id: ChainId): seq<Outcome> {
    if es == [] then [] else Heard(es[0], id) + OutcomesOf(es[1..], id)
  }

  function Heard(e: Event, id: ChainId): seq<Outcome> {
    if e.StepEnds? && e.id == id then [e.outcome] else []
  }

  lemma ChainStep(p: Processor, e: Event, id: ChainId)
    requires Enabled(p, e) && id in p.activeChains && id in p.started && id in Apply(p, e).activeChains
    ensures var c, d := p.activeChains[id], Apply(p, e).activeChains[id];
      d.steps == c.steps && d.outcomes == c.outcomes + Heard(e, id)
  {
    TouchedChain(p, e, id);
  }

  lemma Continued<T>(before: seq<T>, first: seq<T>, between: seq<T>, rest: seq<T>, after: seq<T>)
    requires between == before + first && after == between + rest
    ensures after == before + (first + rest)
  {
  }

  /** Chains do not disturb each other: a running chain has seen its own outcomes, in order, and nothing else. */
  lemma {:induction false} ChainsAreIndependent(p: Processor, es: seq<Event>, id: ChainId)
    requires Interleaving(p, es) && id in p.activeChains && id in p.started && id in Run(p, es).activeChains
    ensures Run(p, es).activeChains[id].steps == p.activeChains[id].steps
    ensures Run(p, es).activeChains[id].outcomes == p.activeChains[id].outcomes + OutcomesOf(es, id)
    decreases |es|
  {
    if es != [] {
      StartedStays(p, es[0], id);
      if id in Apply(p, es[0]).activeChains {
        ChainStep(p, es[0], id);
        ChainsAreIndependent(Apply(p, es[0]), es[1..], id);
        Continued(p.activeChains[id].outcomes, Heard(es[0], id), Apply(p, es[0]).activeChains[id].outcomes,
          OutcomesOf(es[1..], id), Run(p, es).activeChains[id].outcomes);
      } else {
        GoneForGood(Apply(p, es[0]), es[1..], id);
      }
    }
  }

  lemma StartedStays(p: Processor, e: Event, id: ChainId)
    requires Enabled(p, e) && id in p.started
    ensures id in Apply(p, e).started
  {
  }

  lemma {:induction false} GoneForGood(p: Processor, es: seq<Event>, id: ChainId)
    requires Interleaving(p, es) && id in p.started && id !in p.activeChains
    ensures id !in Run(p, es).activeChains
    decreases |es|
  {
    if es != [] {
      GoneForGood(Apply(p, es[0]), es[1..], id);
    }
  }

  /** The registry as the processor keeps it. */
  class ChainRegistry {
    var activeChains: map<ChainId, Chain>
    ghost var started: set<ChainId>
    ghost var removed: seq<ChainId>
    ghost var reports: map<ChainId, Chain>

    ghost function State(): Processor
      reads this
    {
      Processor(activeChains, started, removed, reports)
    }

    constructor ()
      ensures State() == IDLE
    {
      activeChains, started, removed, reports := map[], {}, [], map[];
    }

    method StartChain(id: ChainId, steps: seq<PlanStep>) returns (refusal: Option<StartError>)
      requires id !in started
      modifies this
      ensures refusal == Refusal(old(State()), steps)
      ensures State() == Apply(old(State()), Start(id, steps))
    {
      if |steps| == 0 {
        return Some(InvalidSteps);
      }
      if |steps| > MAX_STEPS {
        return Some(TooManySteps);
      }
      if |activeChains| >= MAX_CONCURRENT_CHAINS {
        return Some(TooManyChains);
      }
      activeChains := activeChains[id := NewChain(steps)];
      started := started + {id};
      refusal := None;
    }

    /** The finally block of executeChain. */
    method FinishChain(id: ChainId) returns (report: Chain)
      requires Enabled(State(), Finish(id))
      modifies this
      ensures report == old(activeChains)[id]
      ensures State() == Apply(old(State()), Finish(id))
    {
      report := activeChains[id];
      activeChains := activeChains - {id};
      removed := removed + [id];
      reports := reports[id := report];
    }
  }

  // ---------------------------------------------------------------- the most recent step, by string order

  const STEP_PREFIX := "step"

  predicate IsStepKey(key: string) {
    STEP_PREFIX <= key
  }

  /** The order of JavaScript's default sort on strings. */
  predicate Before(a: string, b: string) {
    b != [] && (a == [] || a[0] < b[0] || (a[0] == b[0] && Before(a[1..], b[1..])))
  }

  lemma {:induction false} BeforeTotal(a: string, b: string)
    ensures !(Before(a, b) && Before(b, a))
    ensures Before(a, b) || Before(b, a) || a == b
    ensures !Before(a, a)
  {
    if a != [] && b != [] {
      BeforeTotal(a[1..], b[1..]);
      assert a == [a[0]] + a[1..] && b == [b[0]] + b[1..];
    } else if a != [] {
      BeforeTotal(a[1..], []);
    }
  }

  lemma {:induction false} BeforeAfterPrefix(prefix: string, a: string, b: string)
    ensures Before(prefix + a, prefix + b) == Before(a, b)
  {
    if prefix == [] {
      assert prefix + a == a && prefix + b == b;
    } else {
      assert (prefix + a)[1..] == prefix[1..] + a && (prefix + b)[1..] == prefix[1..] + b;
      BeforeAfterPrefix(prefix[1..], a, b);
    }
  }

  /** The keys come out of filter and sort in this order; reverse()[0] is then the last of them. */
  ghost predicate SortedStepKeys(sharedData: map<string, Data>, keys: seq<string>) {
    && (forall k :: k in keys <==> k in sharedData && IsStepKey(k))
    && (forall i, j :: 0 <= i < j < |keys| ==> Before(keys[i], keys[j]))
  }

  /** String order on "stepN" agrees with numeric order exactly while N has one digit: the limit of five is what saves it. */
  lemma StringOrderIsNumeric(limit: nat)
    ensures (forall a, b :: 1 <= a < b <= limit ==> Before(StepKey(a), StepKey(b))) <==> limit <= 9
  {
    if limit <= 9 {
      forall a, b | 1 <= a < b <= limit ensures Before(StepKey(a), StepKey(b)) {
        BeforeAfterPrefix(STEP_PREFIX, Dec(a), Dec(b));
      }
    } else {
      assert Dec(10) == "10" && Dec(9) == "9";
      BeforeAfterPrefix(STEP_PREFIX, Dec(9), Dec(10));
      assert !Before(StepKey(9), StepKey(10));
    }
  }

  ghost predicate LatestPassing(c: Chain, n: nat)
    requires Faithful(c)
  {
    && 1 <= n <= |c.outcomes| && Passes(c.steps[n - 1], c.outcomes[n - 1])
    && (forall i :: n <= i < |c.outcomes| ==> !Passes(c.steps[i], c.outcomes[i]))
  }

  /** A key that some passing step's extraction wrote and that the filter would take for a step's. */
  ghost predicate ForeignKey(steps: seq<PlanStep>, outcomes: seq<Outcome>, key: string)
    requires |outcomes| <= |steps|
  {
    IsStepKey(key) && exists i :: 0 <= i < |outcomes| && Passes(steps[i], outcomes[i]) && key in outcomes[i].outputData
  }

  ghost predicate OwnKey(steps: seq<PlanStep>, outcomes: seq<Outcome>, key: string)
    requires |outcomes| <= |steps|
  {
    exists i :: 0 <= i < |outcomes| && Passes(steps[i], outcomes[i]) && key == StepKey(i + 1)
  }

  lemma {:induction false} SharedStepKeys(steps: seq<PlanStep>, outcomes: seq<Outcome>, key: string)
    requires |outcomes| <= |steps| && IsStepKey(key)
    ensures key in SharedAfter(steps, outcomes) <==> OwnKey(steps, outcomes, key) || ForeignKey(steps, outcomes, key)
  {
    if outcomes != [] {
      var n := |outcomes| - 1;
      var before := outcomes[..n];
      SharedStepKeys(steps, before, key);
      assert forall i :: 0 <= i < n ==> before[i] == outcomes[i];
      assert OwnKey(steps, outcomes, key) <==>
        OwnKey(steps, before, key) || (Passes(steps[n], outcomes[n]) && key == StepKey(n + 1));
      assert ForeignKey(steps, outcomes, key) <==>
        ForeignKey(steps, before, key) || (Passes(steps[n], outcomes[n]) && key in outcomes[n].outputData);
    }
  }

  /** Where an entry of the shared data comes from: step n's result under its own key, or a field extracted from it. */
  datatype Origin = ResultOf(n: nat) | ExtractOf(n: nat)

  ghost function Origins(steps: seq<PlanStep>, outcomes: seq<Outcome>): map<string, Origin>
    requires |outcomes| <= |steps|
  {
    if outcomes == [] then map[] else
      var n := |outcomes|;
      var before := Origins(steps, outcomes[..n - 1]);
      var o := outcomes[n - 1];
      if Passes(steps[n - 1], o)
      then before[StepKey(n) := ResultOf(n)] + map key | key in o.outputData :: ExtractOf(n)
      else before
  }

  ghost predicate HoldsFrom(outcomes: seq<Outcome>, key: string, origin: Origin, value: Data) {
    && 1 <= origin.n <= |outcomes| && Succeeded(outcomes[origin.n - 1])
    && match origin
       case ResultOf(n) => key == StepKey(n) && value == outcomes[n - 1].result
       case ExtractOf(n) => key in outcomes[n - 1].outputData && value == outcomes[n - 1].outputData[key]
  }

  /** Every entry has an origin and holds what that gave it. */
  lemma {:induction false} OriginsTell(steps: seq<PlanStep>, outcomes: seq<Outcome>)
    requires |outcomes| <= |steps|
    ensures SharedAfter(steps, outcomes).Keys == Origins(steps, outcomes).Keys
    ensures forall key :: key in SharedAfter(steps, outcomes) ==>
      HoldsFrom(outcomes, key, Origins(steps, outcomes)[key], SharedAfter(steps, outcomes)[key])
  {
    if outcomes != [] {
      var before := outcomes[..|outcomes| - 1];
      OriginsTell(steps, before);
      forall key | key in SharedAfter(steps, before)
        ensures HoldsFrom(outcomes, key, Origins(steps, before)[key], SharedAfter(steps, before)[key])
      {
        assert HoldsFrom(before, key, Origins(steps, before)[key], SharedAfter(steps, before)[key]);
      }
    }
  }

  /** The key of a passing step holds its result exactly when neither it nor a later passing step extracts that key. */
  lemma {:induction false} OwnKeyKeepsResult(steps: seq<PlanStep>, outcomes: seq<Outcome>, n: nat)
    requires 1 <= n <= |outcomes| <= |steps| && Passes(steps[n - 1], outcomes[n - 1])
    ensures StepKey(n) in Origins(steps, outcomes)
    ensures Origins(steps, outcomes)[StepKey(n)] == ResultOf(n)
      <==> (forall i :: n - 1 <= i < |outcomes| && Passes(steps[i], outcomes[i]) ==> StepKey(n) !in outcomes[i].outputData)
  {
    var m := |outcomes|;
    if n < m {
      var before := outcomes[..m - 1];
      OwnKeyKeepsResult(steps, before, n);
      StepKeysDiffer(n, m);
      assert forall i :: 0 <= i < m - 1 ==> before[i] == outcomes[i];
    }
  }

  lemma StepKeysDiffer(n: nat, m: nat)
    requires n != m
    ensures StepKey(n) != StepKey(m)
  {
    if StepKey(n) == StepKey(m) {
      assert Dec(n) == StepKey(n)[4..] && Dec(m) == StepKey(m)[4..];
      DecInjective(n, m);
    }
  }

  /** The email step looks at the numerically latest passing step's key iff no extracted key that starts with "step" sorts after it. */
  lemma LatestKeyChosen(c: Chain, n: nat, keys: seq<string>)
    requires Faithful(c) && SharedFaithful(c) && |c.steps| <= MAX_STEPS && LatestPassing(c, n) && SortedStepKeys(c.sharedData, keys)
    ensures keys != []
    ensures keys[|keys| - 1] == StepKey(n) <==>
      forall key | ForeignKey(c.steps, c.outcomes, key) :: !Before(StepKey(n), key)
  {
    var own := StepKey(n);
    assert own[..4] == STEP_PREFIX;
    assert OwnKey(c.steps, c.outcomes, own);
    SharedStepKeys(c.steps, c.outcomes, own);
    assert own in keys;
    var at :| 0 <= at < |keys| && keys[at] == own;
    var last := keys[|keys| - 1];
    SharedStepKeys(c.steps, c.outcomes, last);
    BeforeTotal(own, own);
    if last == own {
      forall key | ForeignKey(c.steps, c.outcomes, key) ensures !Before(own, key) {
        SharedStepKeys(c.steps, c.outcomes, key);
        assert key in keys;
        var i :| 0 <= i < |keys| && keys[i] == key;
        BeforeTotal(own, key);
      }
    } else {
      assert Before(own, last);
      BeforeTotal(own, last);
      if OwnKey(c.steps, c.outcomes, last) {
        var i :| 0 <= i < |c.outcomes| && Passes(c.steps[i], c.outcomes[i]) && last == StepKey(i + 1);
        StringOrderIsNumeric(MAX_STEPS);
        assert false;
      }
      assert ForeignKey(c.steps, c.outcomes, last);
    }
  }

  /**
   * What the email step reads is the result of the numerically latest passing step iff no extracted key that starts
   * with "step" sorts after that step's own key, and the step does not itself extract a field of that very name.
   */
  lemma LatestStepChosen(c: Chain, n: nat, keys: seq<string>)
    requires Faithful(c) && SharedFaithful(c) && |c.steps| <= MAX_STEPS && LatestPassing(c, n) && SortedStepKeys(c.sharedData, keys)
    ensures keys != [] && keys[|keys| - 1] in Origins(c.steps, c.outcomes)
    ensures Origins(c.steps, c.outcomes)[keys[|keys| - 1]] == ResultOf(n) <==>
      ((forall key | ForeignKey(c.steps, c.outcomes, key) :: !Before(StepKey(n), key)) && StepKey(n) !in c.outcomes[n - 1].outputData)
    ensures Origins(c.steps, c.outcomes)[keys[|keys| - 1]] == ResultOf(n) ==>
      c.sharedData[keys[|keys| - 1]] == c.outcomes[n - 1].result
  {
    LatestKeyChosen(c, n, keys);
    OriginsTell(c.steps, c.outcomes);
    OwnKeyKeepsResult(c.steps, c.outcomes, n);
    var last := keys[|keys| - 1];
    assert last in keys && HoldsFrom(c.outcomes, last, Origins(c.steps, c.outcomes)[last], c.sharedData[last]);
  }

  const NOTES_THEN_EMAIL := [PlanStep("notes", true, true), PlanStep("email", false, true)]
  const TITLE_EXTRACTED := Returned(true, "milk, eggs", map["stepTitle" := "Groceries"])

  lemma ExtractedKeysSorted(shared: map<string, Data>)
    requires shared.Keys == {StepKey(1), "stepTitle"}
    ensures SortedStepKeys(shared, [StepKey(1), "stepTitle"]) && StepKey(1) != "stepTitle"
  {
    assert Dec(1) == "1" && "stepTitle" == STEP_PREFIX + "Title";
    BeforeAfterPrefix(STEP_PREFIX, Dec(1), "Title");
    BeforeTotal(StepKey(1), "stepTitle");
    assert StepKey(1)[..4] == STEP_PREFIX && "stepTitle"[..4] == STEP_PREFIX;
  }

  /** A plan whose first step extracts a field named "stepTitle": the e-mail step takes it for the latest step. */
  lemma ExtractedKeyChosen()
    ensures var c := Record(NewChain(NOTES_THEN_EMAIL), TITLE_EXTRACTED);
      && Faithful(c) && LatestPassing(c, 1)
      && SortedStepKeys(c.sharedData, [StepKey(1), "stepTitle"]) && StepKey(1) != "stepTitle"
  {
    var c := Record(NewChain(NOTES_THEN_EMAIL), TITLE_EXTRACTED);
    RecordFaithful(NewChain(NOTES_THEN_EMAIL), TITLE_EXTRACTED);
    assert c.sharedData.Keys == {StepKey(1), "stepTitle"};
    ExtractedKeysSorted(c.sharedData);
  }

  const OWN_KEY_EXTRACTED := Returned(true, "milk, eggs", map["step1" := "Groceries"])

  /** A plan whose first step extracts a field named "step1": the right key is chosen, and the field is read under it. */
  lemma OwnKeyOverwritten()
    ensures var c := Record(NewChain(NOTES_THEN_EMAIL), OWN_KEY_EXTRACTED);
      && Faithful(c) && LatestPassing(c, 1) && SortedStepKeys(c.sharedData, [StepKey(1)])
      && c.sharedData[StepKey(1)] == "Groceries" != c.outcomes[0].result
  {
    RecordFaithful(NewChain(NOTES_THEN_EMAIL), OWN_KEY_EXTRACTED);
    assert Dec(1) == "1" && StepKey(1) == "step1" && StepKey(1)[..4] == STEP_PREFIX;
  }
}
