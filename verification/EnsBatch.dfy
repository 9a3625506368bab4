/**
 * Batch ENS lookups: names are normalized and deduplicated, then at most four workers share one index into the list
 * of distinct names. Claiming an index, finding it cached, and coming back from a lookup are separate atomic steps,
 * which allows every interleaving the event loop can produce and more.
 */
module EnsBatch {
  import opened Prelude

  const BATCH_CONCURRENCY: nat := 4
  const MINIMUM_LENGTH := 3

  /** A requested name: the body may hold anything. */
  datatype Input = NotAString(id: nat) | Text(text: string)

  datatype Lookup = Data(data: string) | Error(message: string)

  datatype Item =
    | Invalid(input: Input, message: string)
    | Found(name: string, data: string, cached: bool)
    | Unavailable(name: string, message: string)

  // ---------------------------------------------------------------- normalization

  predicate IsSpace(c: char) {
    c == ' ' || c == '\t' || c == '\n' || c == '\r' || c == '\U{000B}' || c == '\U{000C}'
  }

  function TrimLeft(s: string): string {
    if s != [] && IsSpace(s[0]) then TrimLeft(s[1..]) else s
  }

  function TrimRight(s: string): string {
    if s != [] && IsSpace(s[|s| - 1]) then TrimRight(s[..|s| - 1]) else s
  }

  function StripSuffix(s: string): string {
    if |s| >= 4 && s[|s| - 4..] == ".eth" then s[..|s| - 4] else s
  }

  datatype Normalized = Name(name: string) | Refused(message: string)

  function Normalize(input: Input): Normalized {
    match input
    case NotAString(_) => Refused("Name must be a string")
    case Text(text) =>
      var name := StripSuffix(Lower(TrimRight(TrimLeft(text))));
      if |name| < MINIMUM_LENGTH then Refused("Name must be at least 3 characters") else Name(name)
  }

  // ---------------------------------------------------------------- which inputs are one name

  const BLANKS := " \t\n\r\U{000B}\U{000C}"

  predicate Blank(s: string) {
    forall i :: 0 <= i < |s| ==> s[i] in BLANKS
  }

  predicate Trimmed(s: string) {
    s == "" || (s[0] !in BLANKS && s[|s| - 1] !in BLANKS)
  }

  /** A bare label as the service takes it: in lower case, nothing to trim, no suffix. */
  predicate Label(s: string) {
    NoCapitals(s) && Trimmed(s) && !(|s| >= 4 && s[|s| - 4..] == ".eth")
  }

  lemma BlanksAreSpaces(c: char)
    ensures c in BLANKS <==> IsSpace(c)
  {
    assert BLANKS == [' ', '\t', '\n', '\r', '\U{000B}', '\U{000C}'];
  }

  lemma {:induction false} LeftBlanksGo(pre: string, rest: string)
    requires Blank(pre) && (rest == "" || rest[0] !in BLANKS)
    ensures TrimLeft(pre + rest) == rest
  {
    if pre == "" {
      assert pre + rest == rest;
      if rest != "" {
        BlanksAreSpaces(rest[0]);
      }
    } else {
      BlanksAreSpaces(pre[0]);
      assert (pre + rest)[1..] == pre[1..] + rest;
      LeftBlanksGo(pre[1..], rest);
    }
  }

  lemma {:induction false} RightBlanksGo(rest: string, post: string)
    requires Blank(post) && (rest == "" || rest[|rest| - 1] !in BLANKS)
    ensures TrimRight(rest + post) == rest
  {
    if post == "" {
      assert rest + post == rest;
      if rest != "" {
        BlanksAreSpaces(rest[|rest| - 1]);
      }
    } else {
      BlanksAreSpaces(post[|post| - 1]);
      assert (rest + post)[..|rest + post| - 1] == rest + post[..|post| - 1];
      RightBlanksGo(rest, post[..|post| - 1]);
    }
  }

  lemma SurroundingBlanksGo(pre: string, core: string, post: string)
    requires Blank(pre) && Blank(post) && Trimmed(core)
    ensures TrimRight(TrimLeft(pre + core + post)) == core
  {
    if core == "" {
      assert pre + core + post == (pre + post) + "";
      LeftBlanksGo(pre + post, "");
    } else {
      assert pre + core + post == pre + (core + post);
      LeftBlanksGo(pre, core + post);
      RightBlanksGo(core, post);
    }
  }

  lemma SpellingIsTrimmed(bare: string, shown: string, suffix: string)
    requires Label(bare) && SameButCase(shown, bare) && (suffix == "" || SameButCase(suffix, ".eth"))
    ensures Trimmed(shown + suffix)
  {
    forall c: char, d: char | SameLetter(c, d) && d !in BLANKS ensures c !in BLANKS {
      LettersAreNotBlank(c, d);
    }
    if suffix != "" {
      assert SameLetter(suffix[0], '.') && SameLetter(suffix[3], 'h');
    }
  }

  lemma LettersAreNotBlank(c: char, d: char)
    requires SameLetter(c, d) && d !in BLANKS
    ensures c !in BLANKS
  {
    BlanksAreSpaces(c);
    BlanksAreSpaces(d);
  }

  lemma LowersTo(shown: string, low: string)
    requires NoCapitals(low) && SameButCase(shown, low)
    ensures Lower(shown) == low
  {
    LowerExactly(shown, low);
    LowerExactly(low, low);
  }

  lemma SuffixGoes(bare: string, suffix: string)
    requires Label(bare) && (suffix == "" || suffix == ".eth")
    ensures StripSuffix(bare + suffix) == bare
  {
    var low := bare + suffix;
    if suffix == "" {
      assert low == bare;
    } else {
      assert low[|low| - 4..] == suffix && low[..|low| - 4] == bare;
    }
  }

  lemma SpellingLowers(bare: string, shown: string, suffix: string)
    requires Label(bare) && SameButCase(shown, bare) && (suffix == "" || SameButCase(suffix, ".eth"))
    ensures StripSuffix(Lower(shown + suffix)) == bare
  {
    LowersTo(shown, bare);
    if suffix != "" {
      LowersTo(suffix, ".eth");
    }
    SuffixGoes(bare, Lower(suffix));
    assert Lower(shown + suffix) == bare + Lower(suffix);
  }

  /**
   * However a label is written, in whatever case, with or without its suffix and with white space around it, it is
   * looked up as that label; one of fewer than three characters is refused.
   */
  lemma SpellingsAreOneName(bare: string, pre: string, shown: string, suffix: string, post: string)
    requires Label(bare) && Blank(pre) && Blank(post)
    requires SameButCase(shown, bare) && (suffix == "" || SameButCase(suffix, ".eth"))
    ensures Normalize(Text(pre + (shown + suffix) + post)) ==
      if |bare| < 3 then Refused("Name must be at least 3 characters") else Name(bare)
  {
    SpellingIsTrimmed(bare, shown, suffix);
    SurroundingBlanksGo(pre, shown + suffix, post);
    SpellingLowers(bare, shown, suffix);
  }

  /** An accepted name has three characters or more and no capital; what is no string is refused as such. */
  lemma AcceptedNames(input: Input)
    ensures Normalize(input).Name? ==> |Normalize(input).name| >= 3 && NoCapitals(Normalize(input).name)
    ensures input.NotAString? ==> Normalize(input) == Refused("Name must be a string")
    ensures Normalize(input).Refused? && input.Text? ==> Normalize(input) == Refused("Name must be at least 3 characters")
  {
    if input.Text? {
      LowerExactly(TrimRight(TrimLeft(input.text)), "");
    }
  }

  // ---------------------------------------------------------------- the two lists, as the requester sees them

  /** The refused inputs, in order. */
  function InvalidItems(inputs: seq<Input>): seq<Item> {
    if inputs == [] then [] else
      var last := inputs[|inputs| - 1];
      InvalidItems(inputs[..|inputs| - 1]) + match Normalize(last) case Refused(m) => [Invalid(last, m)] case Name(_) => []
  }

  /** The accepted names, each at its first occurrence. */
  function DistinctNames(inputs: seq<Input>): seq<string> {
    if inputs == [] then [] else
      var before := DistinctNames(inputs[..|inputs| - 1]);
      match Normalize(inputs[|inputs| - 1])
      case Refused(_) => before
      case Name(name) => if name in before then before else before + [name]
  }

  function Normals(inputs: seq<Input>): seq<Normalized> {
    if inputs == [] then [] else Normals(inputs[..|inputs| - 1]) + [Normalize(inputs[|inputs| - 1])]
  }

  /** The list has each accepted name once, and nothing else. */
  lemma {:induction false} NamesAreDistinct(inputs: seq<Input>)
    ensures NoDuplicates(DistinctNames(inputs))
    ensures forall n :: n in DistinctNames(inputs) <==> Name(n) in Normals(inputs)
  {
    if inputs != [] {
      NamesAreDistinct(inputs[..|inputs| - 1]);
    }
  }

  /** First occurrences decide the order: more inputs only add names at the end. */
  lemma {:induction false} OrderIsByFirstOccurrence(inputs: seq<Input>, k: nat)
    requires k <= |inputs|
    ensures DistinctNames(inputs[..k]) <= DistinctNames(inputs)
  {
    if k < |inputs| {
      OrderIsByFirstOccurrence(inputs[..|inputs| - 1], k);
      assert inputs[..|inputs| - 1][..k] == inputs[..k];
    } else {
      assert inputs[..k] == inputs;
    }
  }

  lemma {:induction false} RefusalsAppend(inputs: seq<Input>, more: seq<Input>)
    ensures InvalidItems(inputs + more) == InvalidItems(inputs) + InvalidItems(more)
    decreases |more|
  {
    if more == [] {
      assert inputs + more == inputs;
    } else {
      var n := |more| - 1;
      RefusalsAppend(inputs, more[..n]);
      assert (inputs + more)[..|inputs + more| - 1] == inputs + more[..n];
      assert (inputs + more)[|inputs + more| - 1] == more[n];
    }
  }

  /** What is refused is each refused input with its message, in order: input by input, list after list. */
  lemma RefusalsInOrder(inputs: seq<Input>, one: Input, more: seq<Input>)
    ensures InvalidItems(inputs + [one] + more) ==
      InvalidItems(inputs) + (if Normalize(one).Refused? then [Invalid(one, Normalize(one).message)] else []) + InvalidItems(more)
  {
    RefusalsAppend(inputs + [one], more);
    assert (inputs + [one])[..|inputs|] == inputs;
  }

  /** Two inputs that spell one label make one lookup. */
  lemma TwoSpellingsOneLookup(bare: string, pre: string, shown: string, suffix: string, post: string)
    requires Label(bare) && |bare| >= 3 && Blank(pre) && Blank(post)
    requires SameButCase(shown, bare) && (suffix == "" || SameButCase(suffix, ".eth"))
    ensures DistinctNames([Text(bare), Text(pre + (shown + suffix) + post)]) == [bare]
  {
    SpellingsAreOneName(bare, pre, shown, suffix, post);
    SpellingsAreOneName(bare, "", bare, "", "");
    assert "" + (bare + "") + "" == bare;
    TwiceTheSame(Text(bare), Text(pre + (shown + suffix) + post), bare);
  }

  lemma TwiceTheSame(a: Input, b: Input, name: string)
    requires Normalize(a) == Normalize(b) == Name(name)
    ensures DistinctNames([a, b]) == [name]
  {
    assert [a, b][..1] == [a] && [a][..0] == [];
    assert DistinctNames([a]) == [name];
  }

  method Partition(inputs: seq<Input>) returns (results: seq<Item>, uniqueNames: seq<string>)
    ensures results == InvalidItems(inputs) && uniqueNames == DistinctNames(inputs)
  {
    results, uniqueNames := [], [];
    var seen: set<string> := {};
    var i := 0;
    while i < |inputs|
      invariant i <= |inputs|
      invariant results == InvalidItems(inputs[..i]) && uniqueNames == DistinctNames(inputs[..i])
      invariant forall n :: n in seen <==> n in uniqueNames
    {
      assert inputs[..i + 1][..i] == inputs[..i];
      match Normalize(inputs[i]) {
        case Refused(message) =>
          results := results + [Invalid(inputs[i], message)];
        case Name(name) =>
          if name !in seen {
            seen := seen + {name};
            uniqueNames := uniqueNames + [name];
          }
      }
      i := i + 1;
    }
    assert inputs[..i] == inputs;
  }

  // ---------------------------------------------------------------- the workers

  datatype Worker = Ready | Holding(index: nat) | Awaiting(index: nat) | Done

  /**
   * The cache holds answers by name: one lookup type is one key space. `claims[i]` remembers which worker took index
   * i, and `lapsed` the names whose entry ran out before their answer was settled; both serve the claims below.
   */
  datatype Pool = Pool(
    names: seq<string>,
    nextIndex: nat,
    workers: seq<Worker>,
    cache: map<string, string>,
    resolved: map<string, Item>,
    claims: seq<nat>,
    lapsed: set<string>)

  /** The oracle: what a lookup of a name comes back with. */
  type Service = string -> Lookup

  /** The store drops an entry once its two minutes are up, at whatever moment that is: Expire. */
  datatype Event = Claim(w: nat) | Hit(w: nat) | Miss(w: nat) | Return(w: nat) | Expire(name: string)

  function NewPool(names: seq<string>, cache: map<string, string>): Pool {
    var count := if |names| < BATCH_CONCURRENCY then |names| else BATCH_CONCURRENCY;
    Pool(names, 0, seq(count, i => Ready), cache, map[], [], {})
  }

  predicate Holds(p: Pool, w: nat) {
    w < |p.workers| && p.workers[w].Holding? && p.workers[w].index < |p.names|
  }

  predicate Awaits(p: Pool, w: nat) {
    w < |p.workers| && p.workers[w].Awaiting? && p.workers[w].index < |p.names|
  }

  predicate Enabled(p: Pool, e: Event) {
    match e
    case Claim(w) => w < |p.workers| && p.workers[w].Ready?
    case Hit(w) => Holds(p, w) && p.names[p.workers[w].index] in p.cache
    case Miss(w) => Holds(p, w) && p.names[p.workers[w].index] !in p.cache
    case Return(w) => Awaits(p, w)
    case Expire(name) => name in p.cache
  }

  function Resolve(p: Pool, w: nat, item: Item): Pool
    requires w < |p.workers| && (Holds(p, w) || Awaits(p, w))
  {
    p.(resolved := p.resolved[p.names[p.workers[w].index] := item], workers := p.workers[w := Ready])
  }

  function Apply(p: Pool, e: Event, service: Service): Pool
    requires Enabled(p, e)
  {
    match e
    case Claim(w) =>
      if p.nextIndex < |p.names|
      then p.(workers := p.workers[w := Holding(p.nextIndex)], nextIndex := p.nextIndex + 1, claims := p.claims + [w])
      else p.(workers := p.workers[w := Done])
    case Hit(w) =>
      var name := p.names[p.workers[w].index];
      Resolve(p, w, Found(name, p.cache[name], true))
    case Miss(w) => p.(workers := p.workers[w := Awaiting(p.workers[w].index)])
    case Return(w) =>
      var name := p.names[p.workers[w].index];
      match service(name) {
        case Data(data) => Resolve(p.(cache := p.cache[name := data]), w, Found(name, data, false))
        case Error(message) => Resolve(p, w, Unavailable(name, message))
      }
    case Expire(name) =>
      p.(cache := p.cache - {name}, lapsed := if name in p.resolved then p.lapsed else p.lapsed + {name})
  }

  predicate Interleaving(p: Pool, es: seq<Event>, service: Service)
    decreases |es|
  {
    es == [] || (Enabled(p, es[0]) && Interleaving(Apply(p, es[0], service), es[1..], service))
  }

  function Run(p: Pool, es: seq<Event>, service: Service): Pool
    requires Interleaving(p, es, service)
    decreases |es|
  {
    if es == [] then p else Run(Apply(p, es[0], service), es[1..], service)
  }

  predicate Joined(p: Pool) {
    forall w :: 0 <= w < |p.workers| ==> p.workers[w].Done?
  }

  // ---------------------------------------------------------------- what no schedule can change

  /** The answer a name gets: from the cache as it was when the batch began, else from the service. */
  function AnswerFor(name: string, cache: map<string, string>, service: Service): Item {
    if name in cache then Found(name, cache[name], true)
    else match service(name)
      case Data(data) => Found(name, data, false)
      case Error(message) => Unavailable(name, message)
  }

  predicate Busy(w: Worker) {
    w.Holding? || w.Awaiting?
  }

  ghost predicate InHand(p: Pool, i: nat)
    requires i < |p.claims|
  {
    p.claims[i] < |p.workers| && Busy(p.workers[p.claims[i]]) && p.workers[p.claims[i]].index == i
  }

  /** What is true of each name: unclaimed and unresolved, or in its claimer's hands, or resolved with its answer. */
  ghost predicate NameSound(p: Pool, cache: map<string, string>, service: Service, i: nat)
    requires i < |p.names|
  {
    var name := p.names[i];
    && (name in p.resolved <==> i < |p.claims| && !InHand(p, i))
    && (name in p.resolved ==> p.resolved[name] == AnswerFor(name, cache - p.lapsed, service))
    && (name !in p.resolved ==> (name in p.cache <==> name in cache && name !in p.lapsed))
    && (name !in p.resolved && name in p.cache ==> p.cache[name] == cache[name])
  }

  ghost predicate WorkerSound(p: Pool, cache: map<string, string>, w: nat)
    requires w < |p.workers|
  {
    var worker := p.workers[w];
    && (Busy(worker) ==> worker.index < |p.claims| <= |p.names| && p.claims[worker.index] == w)
    && (worker.Awaiting? && worker.index < |p.names| ==> p.names[worker.index] !in cache - p.lapsed)
    && (worker.Done? ==> p.nextIndex == |p.names|)
  }

  ghost predicate Sound(p: Pool, cache: map<string, string>, service: Service) {
    && |p.claims| == p.nextIndex <= |p.names|
    && (forall i :: 0 <= i < |p.claims| ==> p.claims[i] < |p.workers|)
    && (forall w :: 0 <= w < |p.workers| ==> WorkerSound(p, cache, w))
    && (forall i :: 0 <= i < |p.names| ==> NameSound(p, cache, service, i))
  }

  lemma ExpireStep(p: Pool, name: string, cache: map<string, string>, service: Service)
    requires NoDuplicates(p.names) && Sound(p, cache, service) && Enabled(p, Expire(name))
    ensures Sound(Apply(p, Expire(name), service), cache, service)
  {
    var q := Apply(p, Expire(name), service);
    forall w | 0 <= w < |q.workers| ensures WorkerSound(q, cache, w) {
      assert WorkerSound(p, cache, w);
    }
    forall i | 0 <= i < |q.names| ensures NameSound(q, cache, service, i) {
      assert NameSound(p, cache, service, i);
      assert i < |p.claims| ==> (InHand(q, i) <==> InHand(p, i));
    }
  }

  lemma SoundStep(p: Pool, e: Event, cache: map<string, string>, service: Service)
    requires NoDuplicates(p.names) && Sound(p, cache, service) && Enabled(p, e) && !e.Expire?
    ensures Sound(Apply(p, e, service), cache, service)
  {
    assert WorkerSound(p, cache, e.w);
    var q := Apply(p, e, service);
    assert q.names == p.names && |q.workers| == |p.workers| && q.lapsed == p.lapsed;
    forall w | 0 <= w < |q.workers| ensures WorkerSound(q, cache, w) {
      assert WorkerSound(p, cache, w);
      if e.Miss? && w == e.w {
        assert NameSound(p, cache, service, p.workers[w].index);
        assert InHand(p, p.workers[w].index);
      }
    }
    forall i | 0 <= i < |q.names| ensures NameSound(q, cache, service, i) {
      assert NameSound(p, cache, service, i);
      NameStep(p, e, cache, service, i);
    }
  }

  lemma NameStep(p: Pool, e: Event, cache: map<string, string>, service: Service, i: nat)
    requires NoDuplicates(p.names) && Sound(p, cache, service) && Enabled(p, e) && !e.Expire? && i < |p.names|
    ensures NameSound(Apply(p, e, service), cache, service, i)
  {
    var q := Apply(p, e, service);
    assert NameSound(p, cache, service, i) && WorkerSound(p, cache, e.w);
    if Busy(p.workers[e.w]) {
      var k := p.workers[e.w].index;
      assert InHand(p, k);
      assert p.names[i] == p.names[k] <==> i == k;
      assert NameSound(p, cache, service, k);
    }
  }

  lemma {:induction false} SoundRun(p: Pool, es: seq<Event>, cache: map<string, string>, service: Service)
    requires NoDuplicates(p.names) && Sound(p, cache, service) && Interleaving(p, es, service)
    ensures var q := Run(p, es, service);
      Sound(q, cache, service) && q.names == p.names && |q.workers| == |p.workers|
    decreases |es|
  {
    if es != [] {
      if es[0].Expire? {
        ExpireStep(p, es[0].name, cache, service);
      } else {
        SoundStep(p, es[0], cache, service);
      }
      SoundRun(Apply(p, es[0], service), es[1..], cache, service);
    }
  }

  /** The answers in list order: what the loop after the join appends. */
  function Answers(names: seq<string>, cache: map<string, string>, service: Service): seq<Item> {
    seq(|names|, i requires 0 <= i < |names| => AnswerFor(names[i], cache, service))
  }

  /**
   * Every interleaving of the workers and of entries running out that reaches the join has claimed each distinct name
   * for exactly one of at most four workers and resolved it to the answer it would get on its own, from the cache as it was when the
   * batch began, without the entries that ran out before their turn: nothing else depends on the schedule.
   */
  lemma PoolIsConfluent(names: seq<string>, es: seq<Event>, cache: map<string, string>, service: Service)
    requires NoDuplicates(names) && Interleaving(NewPool(names, cache), es, service)
    requires Joined(Run(NewPool(names, cache), es, service))
    ensures var q := Run(NewPool(names, cache), es, service);
      && |q.claims| == |names| && |q.workers| == (if |names| < 4 then |names| else 4)
      && (forall i :: 0 <= i < |names| ==> q.claims[i] < |q.workers|)
      && (forall i :: 0 <= i < |names| ==> names[i] in q.resolved)
      && (forall i :: 0 <= i < |names| ==> q.resolved[names[i]] == AnswerFor(names[i], cache - q.lapsed, service))
  {
    var p := NewPool(names, cache);
    assert Sound(p, cache, service);
    SoundRun(p, es, cache, service);
    var q := Run(p, es, service);
    if names != [] {
      assert WorkerSound(q, cache, 0);
    }
    forall i | 0 <= i < |names|
      ensures names[i] in q.resolved && q.resolved[names[i]] == AnswerFor(names[i], cache - q.lapsed, service)
    {
      assert NameSound(q, cache, service, i);
    }
  }

  /** The table of results holds each name's own answer. */
  ghost predicate Gives(table: map<string, Item>, names: seq<string>, answers: seq<Item>) {
    |answers| == |names| && forall i :: 0 <= i < |names| ==> names[i] in table && table[names[i]] == answers[i]
  }

  lemma PoolGivesAnswers(names: seq<string>, es: seq<Event>, cache: map<string, string>, service: Service)
    requires NoDuplicates(names) && Interleaving(NewPool(names, cache), es, service)
    requires Joined(Run(NewPool(names, cache), es, service))
    ensures var q := Run(NewPool(names, cache), es, service);
      Gives(q.resolved, names, Answers(names, cache - q.lapsed, service))
  {
    PoolIsConfluent(names, es, cache, service);
  }

  /** A name lapses only if the store drops its entry meanwhile. */
  lemma {:induction false} LapsesAreExpiries(p: Pool, es: seq<Event>, service: Service)
    requires Interleaving(p, es, service)
    ensures forall name :: name in Run(p, es, service).lapsed ==> name in p.lapsed || Expire(name) in es
    decreases |es|
  {
    if es != [] {
      LapsesAreExpiries(Apply(p, es[0], service), es[1..], service);
      assert forall e :: e in es <==> e == es[0] || e in es[1..];
    }
  }

  /** While no entry runs out, the schedule makes no difference at all. */
  lemma ScheduleIsInvisible(names: seq<string>, es: seq<Event>, fs: seq<Event>, cache: map<string, string>, service: Service)
    requires NoDuplicates(names)
    requires Interleaving(NewPool(names, cache), es, service) && Joined(Run(NewPool(names, cache), es, service))
    requires Interleaving(NewPool(names, cache), fs, service) && Joined(Run(NewPool(names, cache), fs, service))
    requires forall e :: e in es || e in fs ==> !e.Expire?
    ensures forall n :: n in names ==>
      var a, b := Run(NewPool(names, cache), es, service).resolved, Run(NewPool(names, cache), fs, service).resolved;
      n in a && n in b && a[n] == b[n]
  {
    PoolIsConfluent(names, es, cache, service);
    PoolIsConfluent(names, fs, cache, service);
    LapsesAreExpiries(NewPool(names, cache), es, service);
    LapsesAreExpiries(NewPool(names, cache), fs, service);
    assert Run(NewPool(names, cache), es, service).lapsed == {} == Run(NewPool(names, cache), fs, service).lapsed;
  }

  // ---------------------------------------------------------------- what is in the cache afterwards

  /** The cache holds what the name was resolved with; an error leaves nothing. */
  ghost predicate CachedLikeResolved(p: Pool, name: string) {
    name in p.resolved ==>
      match p.resolved[name]
      case Found(_, data, _) => name in p.cache && p.cache[name] == data
      case Unavailable(_, _) => name !in p.cache
      case Invalid(_, _) => false
  }

  lemma CachedStep(p: Pool, e: Event, cache: map<string, string>, service: Service, i: nat)
    requires NoDuplicates(p.names) && Sound(p, cache, service) && Enabled(p, e) && i < |p.names|
    requires CachedLikeResolved(p, p.names[i]) && p.names[i] !in p.lapsed && e != Expire(p.names[i])
    ensures CachedLikeResolved(Apply(p, e, service), p.names[i]) && p.names[i] !in Apply(p, e, service).lapsed
  {
    if !e.Expire? && Busy(p.workers[e.w]) {
      assert WorkerSound(p, cache, e.w) && NameSound(p, cache, service, i);
      var k := p.workers[e.w].index;
      assert InHand(p, k) && NameSound(p, cache, service, k);
      assert p.names[i] == p.names[k] <==> i == k;
    }
  }

  lemma {:induction false} CachedRun(p: Pool, es: seq<Event>, cache: map<string, string>, service: Service, i: nat)
    requires NoDuplicates(p.names) && Sound(p, cache, service) && Interleaving(p, es, service) && i < |p.names|
    requires CachedLikeResolved(p, p.names[i]) && p.names[i] !in p.lapsed && Expire(p.names[i]) !in es
    ensures CachedLikeResolved(Run(p, es, service), p.names[i])
    decreases |es|
  {
    if es != [] {
      assert es[0] in es && forall e :: e in es[1..] ==> e in es;
      CachedStep(p, es[0], cache, service, i);
      SoundRun(p, [es[0]], cache, service);
      assert [es[0]][1..] == [];
      CachedRun(Apply(p, es[0], service), es[1..], cache, service, i);
    }
  }

  /**
   * After the join, a name whose entry did not run out is in the cache with the data it was resolved with, so that a
   * next batch need not look it up, and a name that failed is not, so that it will be looked up again.
   */
  lemma AnswersAreCached(names: seq<string>, es: seq<Event>, cache: map<string, string>, service: Service, i: nat)
    requires NoDuplicates(names) && Interleaving(NewPool(names, cache), es, service) && i < |names|
    requires Joined(Run(NewPool(names, cache), es, service)) && Expire(names[i]) !in es
    ensures var q := Run(NewPool(names, cache), es, service);
      match AnswerFor(names[i], cache, service)
      case Found(_, data, _) => names[i] in q.cache && q.cache[names[i]] == data
      case _ => names[i] !in q.cache
  {
    var p := NewPool(names, cache);
    assert Sound(p, cache, service);
    CachedRun(p, es, cache, service, i);
    PoolIsConfluent(names, es, cache, service);
    LapsesAreExpiries(p, es, service);
    assert AnswerFor(names[i], cache - Run(p, es, service).lapsed, service) == AnswerFor(names[i], cache, service);
  }

  // ---------------------------------------------------------------- every run ends

  function Weight(w: Worker): nat {
    match w
    case Ready => 1
    case Holding(_) => 3
    case Awaiting(_) => 2
    case Done => 0
  }

  function TotalWeight(workers: seq<Worker>): nat {
    if workers == [] then 0 else Weight(workers[0]) + TotalWeight(workers[1..])
  }

  lemma {:induction false} WeightAfter(workers: seq<Worker>, w: nat, next: Worker)
    requires w < |workers|
    ensures TotalWeight(workers[w := next]) == TotalWeight(workers) - Weight(workers[w]) + Weight(next)
  {
    if w == 0 {
      assert workers[w := next][1..] == workers[1..];
    } else {
      assert workers[w := next][1..] == workers[1..][w - 1 := next];
      WeightAfter(workers[1..], w - 1, next);
    }
  }

  function Remaining(p: Pool): int {
    4 * (|p.names| - p.nextIndex) + TotalWeight(p.workers)
  }

  /** The steps the workers take. */
  function WorkerSteps(es: seq<Event>): nat {
    if es == [] then 0 else (if es[0].Expire? then 0 else 1) + WorkerSteps(es[1..])
  }

  lemma StepsRunOut(p: Pool, e: Event, service: Service)
    requires Enabled(p, e) && !e.Expire?
    ensures Remaining(Apply(p, e, service)) < Remaining(p)
  {
    WeightAfter(p.workers, e.w, Apply(p, e, service).workers[e.w]);
  }

  lemma {:induction false} RunIsBounded(p: Pool, es: seq<Event>, service: Service)
    requires Interleaving(p, es, service) && p.nextIndex <= |p.names|
    ensures WorkerSteps(es) <= Remaining(p) && Run(p, es, service).nextIndex <= |p.names|
    decreases |es|
  {
    if es != [] {
      if !es[0].Expire? {
        StepsRunOut(p, es[0], service);
      }
      RunIsBounded(Apply(p, es[0], service), es[1..], service);
    }
  }

  /** Workers never get stuck: they take at most 4 steps a name and one each, and where none is possible all are done. */
  lemma {:induction false} PoolAlwaysJoins(names: seq<string>, es: seq<Event>, cache: map<string, string>, service: Service)
    requires NoDuplicates(names) && Interleaving(NewPool(names, cache), es, service)
    ensures WorkerSteps(es) <= 4 * |names| + BATCH_CONCURRENCY
    ensures (forall e: Event :: !e.Expire? ==> !Enabled(Run(NewPool(names, cache), es, service), e)) ==>
      Joined(Run(NewPool(names, cache), es, service))
  {
    var p := NewPool(names, cache);
    RunIsBounded(p, es, service);
    AllReady(p.workers);
    assert Sound(p, cache, service);
    SoundRun(p, es, cache, service);
    var q := Run(p, es, service);
    if forall e: Event :: !e.Expire? ==> !Enabled(q, e) {
      forall w: nat | w < |q.workers| ensures q.workers[w].Done? {
        assert WorkerSound(q, cache, w);
        assert !Enabled(q, Claim(w)) && !Enabled(q, Hit(w)) && !Enabled(q, Miss(w)) && !Enabled(q, Return(w));
      }
    }
  }

  lemma {:induction false} AllReady(workers: seq<Worker>)
    requires forall w :: 0 <= w < |workers| ==> workers[w].Ready?
    ensures TotalWeight(workers) == |workers|
  {
    if workers != [] {
      AllReady(workers[1..]);
    }
  }

  // ---------------------------------------------------------------- one batch

  class Batch {
    const uniqueNames: seq<string>
    var nextIndex: nat
    var workers: seq<Worker>
    var cache: map<string, string>
    var resolvedResults: map<string, Item>
    ghost var claims: seq<nat>
    ghost var lapsed: set<string>

    ghost function Snapshot(): Pool
      reads this
    {
      Pool(uniqueNames, nextIndex, workers, cache, resolvedResults, claims, lapsed)
    }

    constructor (names: seq<string>, cache: map<string, string>)
      ensures Snapshot() == NewPool(names, cache) && uniqueNames == names
    {
      uniqueNames, nextIndex, resolvedResults, claims, lapsed := names, 0, map[], [], {};
      this.cache := cache;
      var count := if |names| < BATCH_CONCURRENCY then |names| else BATCH_CONCURRENCY;
      workers := seq(count, i => Ready);
    }

    /** The loop test and `nextIndex++`, which no other worker can come between. */
    method ClaimNext(w: nat)
      requires Enabled(Snapshot(), Claim(w))
      modifies this
      ensures forall service :: Snapshot() == Apply(old(Snapshot()), Claim(w), service)
    {
      if nextIndex < |uniqueNames| {
        workers := workers[w := Holding(nextIndex)];
        nextIndex := nextIndex + 1;
        claims := claims + [w];
      } else {
        workers := workers[w := Done];
      }
    }

    /** From the cache test to the await, or to the end of the turn when the answer is cached. */
    method LookUp(w: nat)
      requires Holds(Snapshot(), w)
      modifies this
      ensures var e := if uniqueNames[old(workers)[w].index] in old(cache) then Hit(w) else Miss(w);
        forall service :: Snapshot() == Apply(old(Snapshot()), e, service)
    {
      var index := workers[w].index;
      var name := uniqueNames[index];
      if name in cache {
        resolvedResults := resolvedResults[name := Found(name, cache[name], true)];
        workers := workers[w := Ready];
      } else {
        workers := workers[w := Awaiting(index)];
      }
    }

    /** After the await. */
    method Continue(w: nat, service: Service)
      requires Awaits(Snapshot(), w)
      modifies this
      ensures Snapshot() == Apply(old(Snapshot()), Return(w), service)
    {
      var name := uniqueNames[workers[w].index];
      match service(name) {
        case Data(data) =>
          cache := cache[name := data];
          resolvedResults := resolvedResults[name := Found(name, data, false)];
        case Error(message) =>
          resolvedResults := resolvedResults[name := Unavailable(name, message)];
      }
      workers := workers[w := Ready];
    }

    /** The store drops an entry. */
    method DropEntry(name: string)
      requires Enabled(Snapshot(), Expire(name))
      modifies this
      ensures forall service :: Snapshot() == Apply(old(Snapshot()), Expire(name), service)
    {
      cache := cache - {name};
      if name !in resolvedResults {
        lapsed := lapsed + {name};
      }
    }

    /**
     * After the join of any schedule: the array returned is the refused inputs in order, then one answer for each
     * distinct name in first-occurrence order, from the cache entries that lived to see their turn or the service.
     */
    method Collect(inputs: seq<Input>, invalid: seq<Item>,
                   ghost es: seq<Event>, ghost before: map<string, string>, ghost service: Service)
      returns (results: seq<Item>)
      requires uniqueNames == DistinctNames(inputs) && invalid == InvalidItems(inputs)
      requires Interleaving(NewPool(uniqueNames, before), es, service)
      requires Snapshot() == Run(NewPool(uniqueNames, before), es, service) && Joined(Snapshot())
      ensures results == InvalidItems(inputs) + Answers(DistinctNames(inputs), before - lapsed, service)
    {
      NamesAreDistinct(inputs);
      PoolGivesAnswers(uniqueNames, es, before, service);
      ghost var answers := Answers(uniqueNames, before - lapsed, service);
      assert Gives(resolvedResults, uniqueNames, answers);
      results := Listed(invalid, uniqueNames, resolvedResults, answers);
    }
  }

  /** The last loop: the results in the order of the names. */
  method Listed(invalid: seq<Item>, names: seq<string>, table: map<string, Item>, ghost answers: seq<Item>) returns (results: seq<Item>)
    requires Gives(table, names, answers)
    ensures results == invalid + answers
  {
    results := invalid;
    for i := 0 to |names|
      invariant results == invalid + answers[..i]
    {
      results := results + [table[names[i]]];
    }
  }
}
