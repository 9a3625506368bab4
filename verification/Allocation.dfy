/**
 * The token-trader allocation guard: traders share one wallet, so their capital percentages must not sum past 100.
 * Percentages are reals; addresses are the lower-cased keys of the registry's Map, listed in insertion order.
 */
module Allocation {
  import opened Prelude

  datatype Trader = Trader(address: string, percent: Option<real>)

  /** What `updateConfig` is told: the primary strategy gets what the traders leave. */
  datatype Split = Split(primary: real, secondary: real)

  datatype Book = Book(traders: seq<Trader>, published: Option<Split>)

  /** `percent || 20`: zero counts like a missing value. */
  function Weight(percent: Option<real>): (w: real)
    ensures w != 0.0
  {
    if percent.Some? && percent.value != 0.0 then percent.value else 20.0
  }

  ghost predicate Distinct(ts: seq<Trader>) {
    forall i, j :: 0 <= i < j < |ts| ==> ts[i].address != ts[j].address
  }

  function Lookup(ts: seq<Trader>, address: string): Option<Trader> {
    if ts == [] then None
    else if ts[0].address == address then Some(ts[0])
    else Lookup(ts[1..], address)
  }

  function TotalShare(ts: seq<Trader>): real {
    if ts == [] then 0.0 else Weight(ts[0].percent) + TotalShare(ts[1..])
  }

  function OthersShare(ts: seq<Trader>, address: string): real {
    if ts == [] then 0.0
    else (if ts[0].address == address then 0.0 else Weight(ts[0].percent)) + OthersShare(ts[1..], address)
  }

  /** Map.set on the registry: an existing trader keeps its place. */
  function Install(ts: seq<Trader>, t: Trader): seq<Trader> {
    if ts == [] then [t]
    else if ts[0].address == t.address then [t] + ts[1..]
    else [ts[0]] + Install(ts[1..], t)
  }

  /** Map.delete on the registry. */
  function Uninstall(ts: seq<Trader>, address: string): seq<Trader> {
    if ts == [] then []
    else if ts[0].address == address then ts[1..]
    else [ts[0]] + Uninstall(ts[1..], address)
  }

  // ---------------------------------------------------------------- the requests

  datatype Outcome =
    | Refused(maxAllowed: real)
    | NotCreated     // no instance of this token: the registry throws before anything changed
    | NotPublished   // setSecondary threw: the trader is configured, the split is not published
    | Configured(split: Split)

  /** `requested ?? existing ?? 20`: here zero is kept. */
  function EffectivePercent(ts: seq<Trader>, address: string, requested: Option<real>): real {
    var existing := Lookup(ts, address);
    if requested.Some? then requested.value
    else if existing.Some? && existing.value.percent.Some? then existing.value.percent.value
    else 20.0
  }

  function SplitOf(ts: seq<Trader>): Split {
    Split(100.0 - TotalShare(ts), TotalShare(ts))
  }

  /**
   * One configure request, from the reading of the existing instance to the publication: no await lies between.
   * `canCreate` says whether the registry can make an instance for a new token, `secondaryReady` whether the
   * token_trader strategy can be made secondary.
   */
  function Configure(b: Book, address: string, requested: Option<real>, canCreate: bool, secondaryReady: bool): (Book, Outcome) {
    var percent := EffectivePercent(b.traders, address, requested);
    var others := OthersShare(b.traders, address);
    var ts := Install(b.traders, Trader(address, Some(percent)));
    if others + percent > 100.0 then (b, Refused(if others < 100.0 then 100.0 - others else 0.0))
    else if Lookup(b.traders, address) == None && !canCreate then (b, NotCreated)
    else if !secondaryReady then (b.(traders := ts), NotPublished)
    else (Book(ts, Some(SplitOf(ts))), Configured(SplitOf(ts)))
  }

  /** The emergency exit takes a trader out and publishes nothing. */
  function Remove(b: Book, address: string): Book {
    b.(traders := Uninstall(b.traders, address))
  }

  // ---------------------------------------------------------------- sums

  lemma {:induction false} LookupFinds(ts: seq<Trader>, address: string)
    ensures Lookup(ts, address) == None <==> forall t :: t in ts ==> t.address != address
    ensures Lookup(ts, address).Some? ==> Lookup(ts, address).value in ts && Lookup(ts, address).value.address == address
  {
    if ts != [] && ts[0].address != address {
      LookupFinds(ts[1..], address);
      assert forall t :: t in ts <==> t == ts[0] || t in ts[1..];
    }
  }

  lemma {:induction false} OthersIsTotal(ts: seq<Trader>, address: string)
    requires forall t :: t in ts ==> t.address != address
    ensures OthersShare(ts, address) == TotalShare(ts)
    ensures Uninstall(ts, address) == ts
  {
    if ts != [] {
      assert ts[0] in ts;
      assert forall t :: t in ts[1..] ==> t in ts;
      OthersIsTotal(ts[1..], address);
    }
  }

  lemma TailDistinct(ts: seq<Trader>)
    requires Distinct(ts) && ts != []
    ensures Distinct(ts[1..])
    ensures forall t :: t in ts[1..] ==> t.address != ts[0].address
  {
    forall t | t in ts[1..] ensures t.address != ts[0].address {
      var i :| 0 <= i < |ts[1..]| && ts[1..][i] == t;
      assert ts[i + 1] == t;
    }
  }

  /** Reconfiguring replaces the token's own share and leaves every other trader alone. */
  lemma {:induction false} InstallReplaces(ts: seq<Trader>, t: Trader)
    requires Distinct(ts)
    ensures TotalShare(Install(ts, t)) == OthersShare(ts, t.address) + Weight(t.percent)
    ensures forall u :: u in Install(ts, t) <==> u == t || (u in ts && u.address != t.address)
    ensures Distinct(Install(ts, t))
  {
    if ts != [] {
      TailDistinct(ts);
      assert forall u :: u in ts <==> u == ts[0] || u in ts[1..];
      if ts[0].address == t.address {
        OthersIsTotal(ts[1..], t.address);
      } else {
        InstallReplaces(ts[1..], t);
        var rest := Install(ts[1..], t);
        assert forall u :: u in Install(ts, t) <==> u == ts[0] || u in rest;
        assert forall i :: 0 <= i < |rest| ==> rest[i] in rest;
      }
    }
  }

  lemma {:induction false} UninstallDrops(ts: seq<Trader>, address: string)
    requires Distinct(ts)
    ensures TotalShare(Uninstall(ts, address)) == OthersShare(ts, address)
    ensures forall u :: u in Uninstall(ts, address) <==> u in ts && u.address != address
    ensures Distinct(Uninstall(ts, address))
  {
    if ts != [] {
      TailDistinct(ts);
      assert forall u :: u in ts <==> u == ts[0] || u in ts[1..];
      if ts[0].address == address {
        OthersIsTotal(ts[1..], address);
      } else {
        UninstallDrops(ts[1..], address);
        var rest := Uninstall(ts[1..], address);
        assert forall u :: u in Uninstall(ts, address) <==> u == ts[0] || u in rest;
        assert forall i :: 0 <= i < |rest| ==> rest[i] in rest;
      }
    }
  }

  lemma {:induction false} OwnShare(ts: seq<Trader>, address: string)
    requires Distinct(ts)
    ensures var own := Lookup(ts, address);
      TotalShare(ts) == OthersShare(ts, address) + (if own.Some? then Weight(own.value.percent) else 0.0)
  {
    if ts != [] {
      TailDistinct(ts);
      if ts[0].address == address {
        OthersIsTotal(ts[1..], address);
      } else {
        OwnShare(ts[1..], address);
      }
    }
  }

  ghost predicate AllPositive(ts: seq<Trader>) {
    forall t :: t in ts ==> t.percent.Some? ==> t.percent.value > 0.0
  }

  lemma {:induction false} TotalNotNegative(ts: seq<Trader>)
    requires AllPositive(ts)
    ensures TotalShare(ts) >= 0.0
  {
    if ts != [] {
      assert ts[0] in ts;
      assert forall t :: t in ts[1..] ==> t in ts;
      TotalNotNegative(ts[1..]);
    }
  }

  // ---------------------------------------------------------------- what each outcome leaves

  /** The share a request is about: the one it names, zero included, else the trader's own, else 20. */
  ghost predicate AsksShare(ts: seq<Trader>, address: string, requested: Option<real>, share: real) {
    && (requested.Some? ==> share == requested.value)
    && (requested.None? ==> forall t :: t in ts && t.address == address ==> share == if t.percent.Some? then t.percent.value else 20.0)
    && (requested.None? && (forall t :: t in ts ==> t.address != address) ==> share == 20.0)
  }

  /** What a request leaves behind: the trader with the share asked for and everybody else as before, or nothing new. */
  ghost predicate Leaves(b: Book, address: string, share: real, after: Book, outcome: Outcome) {
    match outcome
    case Refused(_) => after == b
    case NotCreated => after == b
    case NotPublished => Reconfigured(b, address, share, after) && after.published == b.published
    case Configured(split) =>
      && Reconfigured(b, address, share, after) && after.published == Some(split)
      && split.secondary == TotalShare(after.traders) && split.primary + split.secondary == 100.0
  }

  ghost predicate Reconfigured(b: Book, address: string, share: real, after: Book) {
    && Distinct(after.traders)
    && forall u :: u in after.traders <==> u == Trader(address, Some(share)) || (u in b.traders && u.address != address)
  }

  /**
   * Which of the four outcomes a request has, and what each leaves: it is refused iff the others and its share make more
   * than 100, cannot be created iff the token is new and the registry makes none, and goes unpublished iff the strategy
   * cannot be made secondary.
   */
  lemma OutcomesExactly(b: Book, address: string, requested: Option<real>, share: real, canCreate: bool, secondaryReady: bool)
    requires Distinct(b.traders) && AsksShare(b.traders, address, requested, share)
    ensures var (after, outcome) := Configure(b, address, requested, canCreate, secondaryReady);
      && Leaves(b, address, share, after, outcome)
      && (outcome.Refused? <==> OthersShare(b.traders, address) + share > 100.0)
      && (outcome.Refused? && OthersShare(b.traders, address) <= 100.0 ==> OthersShare(b.traders, address) + outcome.maxAllowed == 100.0)
      && (outcome.Refused? && OthersShare(b.traders, address) > 100.0 ==> outcome.maxAllowed == 0.0)
      && (outcome.NotCreated? <==> !outcome.Refused? && !canCreate && forall t :: t in b.traders ==> t.address != address)
      && (outcome.NotPublished? <==> !outcome.Refused? && !outcome.NotCreated? && !secondaryReady)
  {
    LookupFinds(b.traders, address);
    assert EffectivePercent(b.traders, address, requested) == share;
    InstallReplaces(b.traders, Trader(address, Some(share)));
  }

  /** An empty book counts nobody; each trader counts for its share, and for 20 without one; leaving one out leaves its share out. */
  lemma {:induction false} SharesAddUp(ts: seq<Trader>, us: seq<Trader>, t: Trader, address: string)
    ensures TotalShare([]) == 0.0 && OthersShare([], address) == 0.0
    ensures TotalShare(ts + us) == TotalShare(ts) + TotalShare(us)
    ensures OthersShare(ts + us, address) == OthersShare(ts, address) + OthersShare(us, address)
    ensures var share := match t.percent case None => 20.0 case Some(p) => if p == 0.0 then 20.0 else p;
      TotalShare([t]) == share && OthersShare([t], address) == if t.address == address then 0.0 else share
  {
    assert [t][1..] == [];
    if ts == [] {
      assert ts + us == us;
    } else {
      SharesAddUp(ts[1..], us, t, address);
      assert (ts + us)[1..] == ts[1..] + us;
    }
  }

  // ---------------------------------------------------------------- runs

  datatype Event =
    | ConfigureRequest(address: string, requested: Option<real>, canCreate: bool, secondaryReady: bool)
    | RemoveRequest(address: string)

  function Step(b: Book, e: Event): Book {
    match e
    case ConfigureRequest(address, requested, canCreate, secondaryReady) =>
      Configure(b, address, requested, canCreate, secondaryReady).0
    case RemoveRequest(address) => Remove(b, address)
  }

  function Run(b: Book, es: seq<Event>): Book
    decreases |es|
  {
    if es == [] then b else Run(Step(b, es[0]), es[1..])
  }

  predicate AsksPositive(e: Event) {
    e.ConfigureRequest? && e.requested.Some? ==> e.requested.value > 0.0
  }

  ghost predicate FairSplit(s: Split) {
    s.primary + s.secondary == 100.0 && s.primary >= 0.0 && s.secondary >= 0.0
  }

  /** No wallet is over-committed, now or in what was last published. */
  ghost predicate WithinWallet(b: Book) {
    && Distinct(b.traders) && AllPositive(b.traders)
    && TotalShare(b.traders) <= 100.0
    && (b.published.Some? ==> FairSplit(b.published.value))
  }

  lemma StepWithinWallet(b: Book, e: Event)
    requires WithinWallet(b) && AsksPositive(e)
    ensures WithinWallet(Step(b, e))
  {
    match e
    case ConfigureRequest(address, requested, _, _) =>
      var percent := EffectivePercent(b.traders, address, requested);
      var t := Trader(address, Some(percent));
      LookupFinds(b.traders, address);
      InstallReplaces(b.traders, t);
      if OthersShare(b.traders, address) + percent <= 100.0 {
        TotalNotNegative(Install(b.traders, t));
      }
    case RemoveRequest(address) =>
      UninstallDrops(b.traders, address);
      OwnShare(b.traders, address);
      LookupFinds(b.traders, address);
  }

  /** Any interleaving of configure and remove requests with positive shares keeps the wallet within 100 %. */
  lemma {:induction false} SharesStayWithinWallet(b: Book, es: seq<Event>)
    requires WithinWallet(b)
    requires forall e :: e in es ==> AsksPositive(e)
    ensures WithinWallet(Run(b, es))
    decreases |es|
  {
    if es != [] {
      assert es[0] in es;
      assert forall e :: e in es[1..] ==> e in es;
      StepWithinWallet(b, es[0]);
      SharesStayWithinWallet(Step(b, es[0]), es[1..]);
    }
  }

  // ---------------------------------------------------------------- without the positivity assumption

  predicate Accepted(o: Outcome) {
    o.Configured? || o.NotPublished?
  }

  lemma {:induction false} ReinstallIsIdle(ts: seq<Trader>, address: string)
    requires Lookup(ts, address).Some?
    ensures Install(ts, Lookup(ts, address).value) == ts
  {
    if ts[0].address != address {
      LookupFinds(ts[1..], address);
      ReinstallIsIdle(ts[1..], address);
    }
  }

  /** A partial update, one that names no share, never resets a trader's share and is never refused. */
  lemma OmittedShareIsKept(b: Book, address: string, canCreate: bool)
    requires WithinWallet(b)
    requires Lookup(b.traders, address).Some? && Lookup(b.traders, address).value.percent.Some?
    ensures Configure(b, address, None, canCreate, true) == (Book(b.traders, Some(SplitOf(b.traders))), Configured(SplitOf(b.traders)))
  {
    LookupFinds(b.traders, address);
    ReinstallIsIdle(b.traders, address);
    OwnShare(b.traders, address);
  }

  /** An accepted request ends within 100 % exactly when its share is not zero or twenty more would still fit. */
  lemma AcceptedWithinExactly(b: Book, address: string, requested: Option<real>, canCreate: bool, secondaryReady: bool)
    requires Distinct(b.traders)
    requires Accepted(Configure(b, address, requested, canCreate, secondaryReady).1)
    ensures TotalShare(Configure(b, address, requested, canCreate, secondaryReady).0.traders) <= 100.0
      <==> EffectivePercent(b.traders, address, requested) != 0.0 || OthersShare(b.traders, address) <= 80.0
  {
    InstallReplaces(b.traders, Trader(address, Some(EffectivePercent(b.traders, address, requested))));
  }

  /** The guard adds a requested zero as 0; the published sum counts it as 20. */
  lemma ZeroShareOvercommits()
    ensures var b := Book([Trader("0xa", Some(90.0))], None);
      Configure(b, "0xb", Some(0.0), true, true).1 == Configured(Split(-10.0, 110.0))
  {
    var b := Book([Trader("0xa", Some(90.0))], None);
    var t := Trader("0xb", Some(0.0));
    assert b.traders[1..] == [];
    assert OthersShare(b.traders, "0xb") == 90.0;
    InstallReplaces(b.traders, t);
  }

  /** A removal keeps the bound exactly when the share taken out is no less than the room that was missing without it. */
  lemma RemovedShareDecides(b: Book, address: string)
    requires Distinct(b.traders) && TotalShare(b.traders) <= 100.0
    ensures TotalShare(Remove(b, address).traders) <= 100.0
      <==> (Lookup(b.traders, address) == None
        || Weight(Lookup(b.traders, address).value.percent) >= TotalShare(b.traders) - 100.0)
  {
    UninstallDrops(b.traders, address);
    OwnShare(b.traders, address);
  }

  ghost predicate HoldsShare(b: Book, address: string, percent: Option<real>) {
    && Distinct(b.traders) && TotalShare(b.traders) <= 100.0
    && Lookup(b.traders, address) == Some(Trader(address, percent))
  }

  /** Every book within 100 % in which a token holds this share stays within it when the token leaves. */
  ghost predicate LeavesWithin(percent: Option<real>) {
    forall b, address :: HoldsShare(b, address, percent) ==> TotalShare(Remove(b, address).traders) <= 100.0
  }

  lemma OtherTakesTheRest(percent: real)
    requires percent < 0.0
    ensures var b := Book([Trader("0xa", Some(percent)), Trader("0xb", Some(100.0 - percent))], None);
      && HoldsShare(b, "0xa", Some(percent))
      && TotalShare(Remove(b, "0xa").traders) == 100.0 - percent
  {
    var a, c := Trader("0xa", Some(percent)), Trader("0xb", Some(100.0 - percent));
    assert [a, c][1..] == [c] && [c][1..] == [];
    assert a.address[2] != c.address[2];
    assert TotalShare([]) == 0.0 && TotalShare([c]) == 100.0 - percent && TotalShare([a, c]) == percent + TotalShare([c]);
  }

  /** A removal is safe, whatever the rest of the book, exactly for a share that is not negative. */
  lemma RemovalWithinExactly(percent: Option<real>)
    ensures LeavesWithin(percent) <==> percent.None? || percent.value >= 0.0
  {
    if percent.None? || percent.value >= 0.0 {
      forall b, address | HoldsShare(b, address, percent) ensures TotalShare(Remove(b, address).traders) <= 100.0 {
        RemovedShareDecides(b, address);
      }
    } else {
      OtherTakesTheRest(percent.value);
    }
  }

  lemma NegativeShareBreaksRemoval()
    ensures var b := Book([Trader("0xa", Some(-50.0)), Trader("0xb", Some(150.0))], None);
      TotalShare(b.traders) == 100.0 && TotalShare(Remove(b, "0xa").traders) == 150.0
  {
    var ts := [Trader("0xa", Some(-50.0)), Trader("0xb", Some(150.0))];
    assert ts[1..] == [Trader("0xb", Some(150.0))] && ts[1..][1..] == [];
  }

  /** For positive shares, the maximum a refusal names is exactly the most that would have been accepted. */
  lemma RefusalNamesTheLimit(b: Book, address: string, asked: real, retry: real, canCreate: bool, secondaryReady: bool)
    requires Configure(b, address, Some(asked), canCreate, secondaryReady).1.Refused? && retry > 0.0
    ensures var limit := Configure(b, address, Some(asked), canCreate, secondaryReady).1.maxAllowed;
      Configure(b, address, Some(retry), canCreate, secondaryReady).1.Refused? <==> retry > limit
  {
  }

  /** Removing a trader leaves a stale published split; removing an unknown one changes nothing. */
  lemma PublishedStaysCurrentExactly(b: Book, address: string)
    requires Distinct(b.traders) && b.published == Some(SplitOf(b.traders))
    ensures Remove(b, address).published == Some(SplitOf(Remove(b, address).traders))
      <==> Lookup(b.traders, address) == None
  {
    UninstallDrops(b.traders, address);
    OwnShare(b.traders, address);
  }

  /** A trader with 40 % leaves: the published split still gives the traders everything, and the primary strategy nothing. */
  lemma RemovalLeavesStaleSplit()
    ensures var b := Book([Trader("0xa", Some(60.0)), Trader("0xb", Some(40.0))], Some(Split(0.0, 100.0)));
      && SplitOf(b.traders) == Split(0.0, 100.0)
      && Remove(b, "0xb").published == Some(Split(0.0, 100.0)) && SplitOf(Remove(b, "0xb").traders) == Split(40.0, 60.0)
  {
    var a, c := Trader("0xa", Some(60.0)), Trader("0xb", Some(40.0));
    assert [a, c][1..] == [c] && [c][1..] == [] && [a][1..] == [];
    assert Uninstall([a, c], "0xb") == [a];
  }

  // ---------------------------------------------------------------- the registry

  class TraderRegistry {
    var traders: seq<Trader>
    var published: Option<Split>

    ghost function State(): Book
      reads this
    {
      Book(traders, published)
    }

    constructor ()
      ensures State() == Book([], None) && WithinWallet(State())
    {
      traders, published := [], None;
    }

    method SumOthers(address: string) returns (sum: real)
      ensures sum == OthersShare(traders, address)
    {
      sum := 0.0;
      var i := 0;
      while i < |traders|
        invariant i <= |traders|
        invariant sum + OthersShare(traders[i..], address) == OthersShare(traders, address)
      {
        if traders[i].address != address {
          sum := sum + Weight(traders[i].percent);
        }
        i := i + 1;
      }
    }

    method SumAll() returns (sum: real)
      ensures sum == TotalShare(traders)
    {
      sum := 0.0;
      for i := 0 to |traders|
        invariant sum + TotalShare(traders[i..]) == TotalShare(traders)
      {
        sum := sum + Weight(traders[i].percent);
      }
    }

    method ConfigureTrader(address: string, requested: Option<real>, canCreate: bool, secondaryReady: bool)
      returns (outcome: Outcome)
      modifies this
      ensures (State(), outcome) == Configure(old(State()), address, requested, canCreate, secondaryReady)
    {
      var percent := EffectivePercent(traders, address, requested);
      var others := SumOthers(address);
      if others + percent > 100.0 {
        return Refused(if others < 100.0 then 100.0 - others else 0.0);
      }
      if Lookup(traders, address) == None && !canCreate {
        return NotCreated;
      }
      traders := Install(traders, Trader(address, Some(percent)));
      if !secondaryReady {
        return NotPublished;
      }
      var total := SumAll();
      published := Some(Split(100.0 - total, total));
      outcome := Configured(Split(100.0 - total, total));
    }

    method RemoveTrader(address: string) returns (found: bool)
      modifies this
      ensures State() == Remove(old(State()), address)
      ensures found <==> exists t :: t in old(traders) && t.address == address
    {
      LookupFinds(traders, address);
      found := Lookup(traders, address).Some?;
      traders := Uninstall(traders, address);
    }
  }
}
