/**
 * The token-trader rotation watchlist. The base strategy and the instances each hold a reference to a list, and any
 * of these references may be the same: adding pushes in place, removing gives every strategy a new list.
 */
module Watchlist {
  import opened Prelude

  datatype Entry = Entry(address: Option<string>, network: Option<string>, symbol: string, decimals: nat, system: bool)

  /** What a request asks for: a lower-cased address, and a network unless none was named. */
  datatype Query = Query(addressKey: string, network: Option<string>)

  /** `t.network || 'bsc'` */
  function NetworkOf(e: Entry): string {
    if e.network.Some? && e.network.value != "" then e.network.value else "bsc"
  }

  predicate Matches(e: Entry, q: Query) {
    && e.address.Some? && Lower(e.address.value) == q.addressKey
    && (q.network.Some? ==> NetworkOf(e) == q.network.value)
  }

  // ---------------------------------------------------------------- the allowlist of system tokens

  /** In four pieces, which lower-case one by one. */
  const SKYNET_ADDRESS := "0x8b77cc5c6c" + "b3d846608d" + "9d5dd03fa4" + "06ba03b8f1"

  predicate IsSystemToken(network: string, address: string) {
    address != "" && network + ":" + Lower(address) == "bsc" + ":" + SKYNET_ADDRESS
  }

  /** Flagged, and on the allowlist under `target.network || tokenNetwork || 'bsc'`. */
  predicate Shielded(e: Entry, q: Query) {
    && e.system && e.address.Some?
    && IsSystemToken(
         if e.network.Some? && e.network.value != "" then e.network.value
         else if q.network.Some? then q.network.value
         else "bsc",
         e.address.value)
  }

  lemma LowerAppends(s: string, t: string)
    ensures Lower(s + t) == Lower(s) + Lower(t)
  {
  }

  lemma SkynetIsLower()
    ensures Lower(SKYNET_ADDRESS) == SKYNET_ADDRESS
  {
    var a, b, c, d := "0x8b77cc5c6c", "b3d846608d", "9d5dd03fa4", "06ba03b8f1";
    assert Lower(a) == a;
    assert Lower(b) == b;
    assert Lower(c) == c;
    assert Lower(d) == d;
    LowerAppends(a, b);
    LowerAppends(a + b, c);
    LowerAppends(a + b + c, d);
  }

  predicate NoColon(s: string) {
    forall i :: 0 <= i < |s| ==> s[i] != ':'
  }

  lemma SkynetHasNoColon()
    ensures NoColon(SKYNET_ADDRESS) && SKYNET_ADDRESS != ""
  {
    var a, b, c, d := "0x8b77cc5c6c", "b3d846608d", "9d5dd03fa4", "06ba03b8f1";
    assert NoColon(a) && a != "";
    assert NoColon(b);
    assert NoColon(c);
    assert NoColon(d);
  }

  /** What comes before and after the only colon. */
  lemma ColonSplits(a: string, x: string, b: string, y: string)
    requires a + ":" + x == b + ":" + y && NoColon(b) && NoColon(y)
    ensures a == b && x == y
  {
    var text := a + ":" + x;
    assert text[|a|] == ':' && text[..|a|] == a && text[|a| + 1..] == x;
    assert text == b + ":" + y && text[|b|] == ':' && text[..|b|] == b && text[|b| + 1..] == y;
  }

  /** The allowlist has one token, on one network, in whatever case its address is written. */
  lemma SystemTokenExactly(network: string, address: string)
    ensures IsSystemToken(network, address) <==> network == "bsc" && SameButCase(address, SKYNET_ADDRESS)
  {
    SkynetHasNoColon();
    SkynetIsLower();
    LowerExactly(address, SKYNET_ADDRESS);
    if IsSystemToken(network, address) {
      ColonSplits(network, Lower(address), "bsc", SKYNET_ADDRESS);
    }
  }

  /** An entry is shielded iff it is flagged, is that token, and counts as on its network: by itself, else by the request. */
  lemma ShieldedExactly(e: Entry, q: Query)
    ensures Shielded(e, q) <==>
      && e.system && e.address.Some? && SameButCase(e.address.value, SKYNET_ADDRESS)
      && (if e.network.Some? && e.network.value != "" then e.network.value == "bsc" else q.network == None || q.network == Some("bsc"))
  {
    if e.address.Some? {
      SystemTokenExactly("bsc", e.address.value);
      forall network ensures IsSystemToken(network, e.address.value) <==> network == "bsc" && SameButCase(e.address.value, SKYNET_ADDRESS) {
        SystemTokenExactly(network, e.address.value);
      }
    }
  }

  // ---------------------------------------------------------------- one list

  function FirstMatch(es: seq<Entry>, q: Query): Option<Entry> {
    if es == [] then None
    else if Matches(es[0], q) then Some(es[0])
    else FirstMatch(es[1..], q)
  }

  ghost predicate Holds(es: seq<Entry>, q: Query) {
    exists e :: e in es && Matches(e, q)
  }

  function Ensured(es: seq<Entry>, q: Query, entry: Entry): seq<Entry> {
    if FirstMatch(es, q).Some? then es else es + [entry]
  }

  function Without(es: seq<Entry>, q: Query): seq<Entry> {
    if es == [] then []
    else if Matches(es[0], q) then Without(es[1..], q)
    else [es[0]] + Without(es[1..], q)
  }

  predicate Blocked(es: seq<Entry>, q: Query) {
    var first := FirstMatch(es, q);
    first.Some? && Shielded(first.value, q)
  }

  function Removed(es: seq<Entry>, q: Query): seq<Entry> {
    if Blocked(es, q) then es else Without(es, q)
  }

  lemma {:induction false} FirstMatchFinds(es: seq<Entry>, q: Query)
    ensures FirstMatch(es, q).Some? <==> Holds(es, q)
    ensures FirstMatch(es, q).Some? ==> FirstMatch(es, q).value in es && Matches(FirstMatch(es, q).value, q)
  {
    if es != [] {
      FirstMatchFinds(es[1..], q);
      assert forall e :: e in es <==> e == es[0] || e in es[1..];
    }
  }

  lemma {:induction false} WithoutKeeps(es: seq<Entry>, q: Query)
    ensures forall e :: e in Without(es, q) <==> e in es && !Matches(e, q)
    ensures |Without(es, q)| <= |es| && (|Without(es, q)| < |es| <==> Holds(es, q))
    ensures Without(es, q) == es <==> !Holds(es, q)
  {
    if es != [] {
      WithoutKeeps(es[1..], q);
      assert forall e :: e in es <==> e == es[0] || e in es[1..];
      if Matches(es[0], q) {
        assert es[0] in es;
      } else {
        assert forall e :: e in Without(es, q) <==> e == es[0] || e in Without(es[1..], q);
        assert Without(es, q) == es <==> Without(es[1..], q) == es[1..];
      }
    }
  }

  lemma {:induction false} WithoutAppended(es: seq<Entry>, entry: Entry, q: Query)
    ensures Without(es + [entry], q) == Without(es, q) + (if Matches(entry, q) then [] else [entry])
    ensures FirstMatch(es, q).Some? ==> FirstMatch(es + [entry], q) == FirstMatch(es, q)
    ensures FirstMatch(es, q) == None ==> FirstMatch(es + [entry], q) == if Matches(entry, q) then Some(entry) else None
  {
    if es == [] {
      assert es + [entry] == [entry] && [entry][1..] == [];
    } else {
      WithoutAppended(es[1..], entry, q);
      assert (es + [entry])[1..] == es[1..] + [entry];
    }
  }

  /** The query a request makes of an address as the user typed it. */
  function Asks(address: string, network: Option<string>): Query {
    Query(Lower(address), network)
  }

  /**
   * A request is about an entry iff the addresses are the same but for the case of letters, as with a checksummed one,
   * and the entry is on the network named, an entry without one counting as on bsc.
   */
  lemma RequestMatchesExactly(e: Entry, address: string, network: Option<string>)
    ensures Matches(e, Asks(address, network)) <==>
      && e.address.Some? && SameButCase(e.address.value, address)
      && (network.Some? ==> network.value == if e.network.None? || e.network.value == "" then "bsc" else e.network.value)
  {
    if e.address.Some? {
      LowerExactly(e.address.value, address);
    }
  }

  /** In whatever case its address is typed, a listed token is not listed again; removed, it is gone in all of them. */
  lemma CaseMakesNoDifference(es: seq<Entry>, e: Entry, address: string, network: string, entry: Entry)
    requires e in es && e.address.Some? && SameButCase(e.address.value, address)
    requires network == if e.network.None? || e.network.value == "" then "bsc" else e.network.value
    ensures Ensured(es, Asks(address, Some(network)), entry) == es
    ensures e in Removed(es, Asks(address, Some(network))) <==> Blocked(es, Asks(address, Some(network)))
  {
    RequestMatchesExactly(e, address, Some(network));
    FirstMatchFinds(es, Asks(address, Some(network)));
    WithoutKeeps(es, Asks(address, Some(network)));
  }

  // ---------------------------------------------------------------- what a list keeps

  ghost predicate SameToken(a: Entry, b: Entry) {
    a.address.Some? && b.address.Some? && Lower(a.address.value) == Lower(b.address.value) && NetworkOf(a) == NetworkOf(b)
  }

  /** No token is listed twice. */
  ghost predicate Unique(es: seq<Entry>) {
    forall i, j :: 0 <= i < j < |es| ==> !SameToken(es[i], es[j])
  }

  /** What a removal leaves of the request: nothing, unless the first match is a shielded system token. */
  lemma RemovalIsCompleteExactly(es: seq<Entry>, q: Query)
    ensures Holds(Removed(es, q), q) <==> Blocked(es, q)
  {
    FirstMatchFinds(es, q);
    WithoutKeeps(es, q);
  }

  /**
   * Adding a token and removing it again, with or without its network, gives back the list, contents and order,
   * exactly when the removal found nothing before, or a shielded token made both requests idle.
   */
  lemma AddThenRemoveRestoresExactly(es: seq<Entry>, add: Query, entry: Entry, remove: Query)
    requires Matches(entry, add) && !entry.system
    requires remove.addressKey == add.addressKey && (remove.network == add.network || remove.network == None)
    ensures Removed(Ensured(es, add, entry), remove) == es
      <==> !Holds(es, remove) || (Blocked(es, remove) && Holds(es, add))
  {
    FirstMatchFinds(es, add);
    FirstMatchFinds(es, remove);
    assert forall e :: Matches(e, add) ==> Matches(e, remove);
    var listed := Ensured(es, add, entry);
    FirstMatchFinds(listed, remove);
    WithoutKeeps(listed, remove);
    WithoutKeeps(es, remove);
    WithoutAppended(es, entry, remove);
    if !Holds(es, add) {
      assert entry in listed && Matches(entry, remove);
      assert |listed| != |es|;
    } else {
      assert listed == es;
    }
  }

  lemma UniqueAppended(es: seq<Entry>, q: Query, entry: Entry)
    requires Unique(es) && q.network.Some? && Matches(entry, q)
    ensures Unique(Ensured(es, q, entry))
  {
    FirstMatchFinds(es, q);
    forall i | 0 <= i < |es| && SameToken(es[i], entry) ensures Holds(es, q) {
      assert es[i] in es && Matches(es[i], q);
    }
  }

  lemma {:induction false} UniqueFiltered(es: seq<Entry>, q: Query)
    requires Unique(es)
    ensures Unique(Without(es, q))
  {
    if es != [] {
      assert forall i :: 0 <= i < |es[1..]| ==> es[1..][i] == es[i + 1];
      UniqueFiltered(es[1..], q);
      var rest := Without(es[1..], q);
      WithoutKeeps(es[1..], q);
      forall i | 0 <= i < |rest| ensures !SameToken(es[0], rest[i]) {
        assert rest[i] in es[1..];
      }
    }
  }

  /** How many entries answer the request. */
  function Occurrences(es: seq<Entry>, q: Query): int {
    |es| - |Without(es, q)|
  }

  lemma {:induction false} UniqueAnswersOnce(es: seq<Entry>, q: Query)
    requires Unique(es) && q.network.Some?
    ensures 0 <= Occurrences(es, q) <= 1
  {
    if es != [] {
      assert forall i :: 0 <= i < |es[1..]| ==> es[1..][i] == es[i + 1];
      UniqueAnswersOnce(es[1..], q);
      if Matches(es[0], q) {
        forall e | e in es[1..] ensures !Matches(e, q) {
          var i :| 0 <= i < |es[1..]| && es[1..][i] == e;
          assert !SameToken(es[0], es[i + 1]);
        }
        WithoutKeeps(es[1..], q);
      }
    }
  }

  /** Adding leaves exactly one entry for the token, if it was listed at most once. */
  lemma AddLeavesExactlyOne(es: seq<Entry>, q: Query, entry: Entry)
    requires Unique(es) && q.network.Some? && Matches(entry, q)
    ensures Occurrences(Ensured(es, q, entry), q) == 1 && es <= Ensured(es, q, entry)
  {
    FirstMatchFinds(es, q);
    WithoutKeeps(es, q);
    WithoutAppended(es, entry, q);
    UniqueAnswersOnce(es, q);
  }

  /** In a list without duplicates, a shielded token is out of reach of every request that names a network. */
  lemma {:induction false} ShieldedStays(es: seq<Entry>, q: Query, e: Entry)
    requires Unique(es) && e in es && Shielded(e, Query("", None)) && q.network.Some?
    ensures e in Removed(es, q)
  {
    WithoutKeeps(es, q);
    FirstMatchFinds(es, q);
    if Matches(e, q) {
      var first := FirstMatch(es, q).value;
      assert SameToken(first, e) && SameToken(e, first);
      assert first == e;
      assert Shielded(e, q);
    }
  }

  // ---------------------------------------------------------------- runs of requests, on one list

  datatype Request = Add(query: Query, entry: Entry) | Remove(query: Query)

  function Apply(es: seq<Entry>, r: Request): seq<Entry> {
    match r
    case Add(query, entry) => Ensured(es, query, entry)
    case Remove(query) => Removed(es, query)
  }

  function Run(es: seq<Entry>, rs: seq<Request>): seq<Entry>
    decreases |rs|
  {
    if rs == [] then es else Run(Apply(es, rs[0]), rs[1..])
  }

  /** The add route insists on a network and builds an entry that answers its own query, without the system flag. */
  predicate WellFormed(r: Request) {
    r.Add? ==> r.query.network.Some? && Matches(r.entry, r.query) && !r.entry.system
  }

  /** Over any run, no token gets listed twice. */
  lemma {:induction false} RunStaysUnique(es: seq<Entry>, rs: seq<Request>)
    requires Unique(es) && forall r :: r in rs ==> WellFormed(r)
    ensures Unique(Run(es, rs))
    decreases |rs|
  {
    if rs != [] {
      assert rs[0] in rs && forall r :: r in rs[1..] ==> r in rs;
      match rs[0] {
        case Add(query, entry) => UniqueAppended(es, query, entry);
        case Remove(query) => UniqueFiltered(es, query);
      }
      RunStaysUnique(Apply(es, rs[0]), rs[1..]);
    }
  }

  /** Over any run whose removals name a network, a shielded token stays listed. */
  lemma {:induction false} RunKeepsShielded(es: seq<Entry>, rs: seq<Request>, e: Entry)
    requires Unique(es) && e in es && Shielded(e, Query("", None))
    requires forall r :: r in rs ==> WellFormed(r) && r.query.network.Some?
    ensures e in Run(es, rs)
    decreases |rs|
  {
    if rs != [] {
      assert rs[0] in rs && forall r :: r in rs[1..] ==> r in rs;
      match rs[0] {
        case Add(query, entry) => UniqueAppended(es, query, entry);
        case Remove(query) =>
          UniqueFiltered(es, query);
          ShieldedStays(es, query, e);
      }
      RunKeepsShielded(Apply(es, rs[0]), rs[1..], e);
    }
  }

  // ---------------------------------------------------------------- which shielded tokens are safe from every request

  /** The removal that asks for the entry's address on whatever network. */
  function AnyNetwork(e: Entry): Query
    requires e.address.Some?
  {
    Query(Lower(e.address.value), None)
  }

  ghost predicate OwnShield(e: Entry) {
    Shielded(e, Query("", None))
  }

  lemma OwnShieldMeans(e: Entry, q: Query)
    requires OwnShield(e) && Matches(e, q)
    ensures Shielded(e, q) && NetworkOf(e) + ":" + Lower(e.address.value) == "bsc" + ":" + SKYNET_ADDRESS
  {
  }

  /** Where the first entry under an address stands, no request for it gets past that entry. */
  lemma {:induction false} FirstAnswers(es: seq<Entry>, q: Query, e: Entry)
    requires e.address.Some? && FirstMatch(es, AnyNetwork(e)) == Some(e)
    ensures Matches(e, q) ==> FirstMatch(es, q) == Some(e)
    ensures !Matches(e, q) ==> FirstMatch(Without(es, q), AnyNetwork(e)) == Some(e)
  {
    if !Matches(es[0], AnyNetwork(e)) {
      FirstAnswers(es[1..], q, e);
    }
  }

  lemma FirstStays(es: seq<Entry>, r: Request, e: Entry)
    requires OwnShield(e) && FirstMatch(es, AnyNetwork(e)) == Some(e)
    ensures FirstMatch(Apply(es, r), AnyNetwork(e)) == Some(e)
  {
    match r
    case Add(query, entry) => WithoutAppended(es, entry, AnyNetwork(e));
    case Remove(query) =>
      FirstAnswers(es, query, e);
      if Matches(e, query) {
        OwnShieldMeans(e, query);
      }
  }

  lemma {:induction false} FirstStaysInRun(es: seq<Entry>, rs: seq<Request>, e: Entry)
    requires OwnShield(e) && FirstMatch(es, AnyNetwork(e)) == Some(e)
    ensures e in Run(es, rs)
    decreases |rs|
  {
    if rs == [] {
      FirstMatchFinds(es, AnyNetwork(e));
    } else {
      FirstStays(es, rs[0], e);
      FirstStaysInRun(Apply(es, rs[0]), rs[1..], e);
    }
  }

  /** Two shielded entries under one address are one token: the allowlist has it on one network only. */
  lemma ShieldsAgree(e: Entry, f: Entry)
    requires OwnShield(e) && OwnShield(f) && Lower(e.address.value) == Lower(f.address.value)
    ensures SameToken(e, f) && SameToken(f, e)
  {
    var suffix := ":" + Lower(e.address.value);
    assert NetworkOf(e) + suffix == NetworkOf(e) + ":" + Lower(e.address.value);
    assert NetworkOf(f) + suffix == NetworkOf(f) + ":" + Lower(f.address.value);
    OwnShieldMeans(e, AnyNetwork(e));
    OwnShieldMeans(f, AnyNetwork(f));
    assert (NetworkOf(e) + suffix)[..|NetworkOf(e)|] == NetworkOf(e);
    assert (NetworkOf(f) + suffix)[..|NetworkOf(f)|] == NetworkOf(f);
  }

  /** If another entry comes first under the address, one removal without a network takes the shielded token. */
  lemma SecondIsTaken(es: seq<Entry>, e: Entry)
    requires Unique(es) && e in es && OwnShield(e) && FirstMatch(es, AnyNetwork(e)) != Some(e)
    ensures !Blocked(es, AnyNetwork(e)) && e !in Removed(es, AnyNetwork(e))
  {
    var q := AnyNetwork(e);
    FirstMatchFinds(es, q);
    WithoutKeeps(es, q);
    assert Matches(e, q);
    var f := FirstMatch(es, q).value;
    if Shielded(f, q) {
      ShieldsAgree(e, f);
    }
  }

  ghost predicate AllWellFormed(rs: seq<Request>) {
    forall r :: r in rs ==> WellFormed(r)
  }

  /**
   * In a list without duplicates, a shielded token outlasts every run of requests, with or without networks, iff it is
   * the first entry under its address, which is when a removal of that address without a network is blocked.
   */
  lemma ShieldHoldsExactly(es: seq<Entry>, e: Entry)
    requires Unique(es) && e in es && OwnShield(e)
    ensures (forall rs :: AllWellFormed(rs) ==> e in Run(es, rs)) <==> FirstMatch(es, AnyNetwork(e)) == Some(e)
    ensures (forall q :: e in Removed(es, q)) <==> Blocked(es, AnyNetwork(e))
    ensures Blocked(es, AnyNetwork(e)) <==> FirstMatch(es, AnyNetwork(e)) == Some(e)
  {
    if FirstMatch(es, AnyNetwork(e)) == Some(e) {
      OwnShieldMeans(e, AnyNetwork(e));
      forall rs | AllWellFormed(rs) ensures e in Run(es, rs) {
        FirstStaysInRun(es, rs, e);
      }
      forall q ensures e in Removed(es, q) {
        FirstStaysInRun(es, [Remove(q)], e);
        RunOfOne(es, Remove(q));
      }
    } else {
      SecondIsTaken(es, e);
      RunOfOne(es, Remove(AnyNetwork(e)));
      assert AllWellFormed([Remove(AnyNetwork(e))]);
    }
  }

  lemma RunOfOne(es: seq<Entry>, r: Request)
    ensures Run(es, [r]) == Apply(es, r)
  {
    assert [r][1..] == [];
  }

  const SKYNET := Entry(Some(SKYNET_ADDRESS), Some("bsc"), "SKYNET", 18, true)
  const NAMESAKE := Entry(Some(SKYNET_ADDRESS), Some("base"), "SKYNET", 18, false)

  /** Without a network, the shield of the allowlisted token is lost behind a namesake on another network. */
  lemma UnnamedRemovalTakesSystemToken()
    ensures Unique([NAMESAKE, SKYNET]) && Shielded(SKYNET, Query(SKYNET_ADDRESS, None))
    ensures Removed([NAMESAKE, SKYNET], Query(SKYNET_ADDRESS, None)) == []
  {
    SkynetIsLower();
    var q := Query(SKYNET_ADDRESS, None);
    assert SKYNET_ADDRESS[0] == '0';
    assert NetworkOf(NAMESAKE)[1] != NetworkOf(SKYNET)[1];
    assert Matches(NAMESAKE, q) && Matches(SKYNET, q);
    assert [NAMESAKE, SKYNET][1..] == [SKYNET] && [SKYNET][1..] == [];
    assert Without([SKYNET], q) == [];
    assert FirstMatch([NAMESAKE, SKYNET], q) == Some(NAMESAKE);
  }

  // ---------------------------------------------------------------- the strategies and their shared lists

  class WatchArray {
    var entries: seq<Entry>

    constructor (es: seq<Entry>)
      ensures entries == es
    {
      entries := es;
    }
  }

  /** A strategy's configuration; without one the routes pass it over. */
  class Strategy {
    const configured: bool
    var watchlist: WatchArray?

    constructor (configured: bool, watchlist: WatchArray?)
      ensures this.configured == configured && this.watchlist == watchlist
    {
      this.configured := configured;
      this.watchlist := watchlist;
    }

    predicate HasList()
      reads this
    {
      configured && watchlist != null
    }

    /** What the strategy lists. */
    ghost function Listed(): Option<seq<Entry>>
      reads this, watchlist
    {
      if HasList() then Some(watchlist.entries) else None
    }

    ghost function Held(): WatchArray?
      reads this
    {
      if configured then watchlist else null
    }

    /** One turn of the add loop. */
    method EnsureListed(q: Query, entry: Entry) returns (found: bool)
      requires configured
      modifies this, watchlist
      ensures watchlist != null
      ensures old(watchlist) != null ==>
        watchlist == old(watchlist) && watchlist.entries == Ensured(old(watchlist.entries), q, entry)
      ensures old(watchlist) == null ==> fresh(watchlist) && watchlist.entries == [entry]
      ensures found <==> old(watchlist) != null && Holds(old(watchlist.entries), q)
    {
      if watchlist == null {
        watchlist := new WatchArray([]);
      }
      FirstMatchFinds(watchlist.entries, q);
      found := FirstMatch(watchlist.entries, q).Some?;
      if !found {
        watchlist.entries := watchlist.entries + [entry];
      }
    }

    /** One turn of the removal loop: a new list replaces the reference, the old list is left as it was. */
    method DropMatches(q: Query) returns (removed: bool, blocked: bool)
      requires HasList()
      modifies this
      ensures HasList() && watchlist.entries == Removed(old(watchlist.entries), q)
      ensures if blocked then watchlist == old(watchlist) else fresh(watchlist)
      ensures blocked <==> Blocked(old(watchlist.entries), q)
      ensures removed <==> !blocked && Holds(old(watchlist.entries), q)
    {
      WithoutKeeps(watchlist.entries, q);
      blocked := Blocked(watchlist.entries, q);
      removed := false;
      if !blocked {
        var before := |watchlist.entries|;
        watchlist := new WatchArray(Without(watchlist.entries, q));
        removed := |watchlist.entries| < before;
      }
    }
  }

  ghost function ListsOf(targets: seq<Strategy>): set<WatchArray>
    reads targets
  {
    set t | t in targets && t.HasList() :: t.watchlist
  }

  function AfterAdd(configured: bool, before: Option<seq<Entry>>, q: Query, entry: Entry): Option<seq<Entry>> {
    if !configured then before else Some(Ensured(if before.Some? then before.value else [], q, entry))
  }

  function AfterRemove(before: Option<seq<Entry>>, q: Query): Option<seq<Entry>> {
    if before.None? then None else Some(Removed(before.value, q))
  }

  ghost function HeldBy(targets: seq<Strategy>): (held: seq<WatchArray?>)
    reads targets
  {
    seq(|targets|, k requires 0 <= k < |targets| reads targets => targets[k].Held())
  }

  /** The lists held by the first k strategies. */
  ghost function SeenBefore(held: seq<WatchArray?>, k: nat): set<WatchArray>
    requires k <= |held|
  {
    if k == 0 then {}
    else if held[k - 1] == null then SeenBefore(held, k - 1)
    else SeenBefore(held, k - 1) + {held[k - 1]}
  }

  /** One of the first k references is to a list that has a match, or to one an earlier strategy holds too. */
  ghost predicate Hits(held: seq<WatchArray?>, matching: set<WatchArray>, k: nat)
    requires k <= |held|
  {
    k > 0 && (Hits(held, matching, k - 1) || (held[k - 1] != null && (held[k - 1] in matching || held[k - 1] in SeenBefore(held, k - 1))))
  }

  lemma {:induction false} SeenBeforeHolds(held: seq<WatchArray?>, k: nat, a: WatchArray)
    requires k <= |held|
    ensures a in SeenBefore(held, k) <==> exists j :: 0 <= j < k && held[j] == a
  {
    if k > 0 {
      SeenBeforeHolds(held, k - 1, a);
    }
  }

  /** What `alreadyPresent` says, without the order of the loop. */
  lemma {:induction false} HitsExactly(held: seq<WatchArray?>, matching: set<WatchArray>, n: nat)
    requires n <= |held|
    ensures Hits(held, matching, n) <==>
      ((exists k :: 0 <= k < n && held[k] in matching)
      || (exists j, k :: 0 <= j < k < n && held[j] == held[k] != null))
  {
    if n > 0 {
      HitsExactly(held, matching, n - 1);
      if held[n - 1] != null {
        SeenBeforeHolds(held, n - 1, held[n - 1]);
      }
    }
  }

  ghost function Matching(lists: set<WatchArray>, q: Query): set<WatchArray>
    reads lists
  {
    set a | a in lists && Holds(a.entries, q)
  }

  lemma EnsuredTwice(es: seq<Entry>, q: Query, entry: Entry)
    requires Matches(entry, q)
    ensures Holds(Ensured(es, q, entry), q)
    ensures Ensured(Ensured(es, q, entry), q, entry) == Ensured(es, q, entry)
  {
    FirstMatchFinds(es, q);
    WithoutAppended(es, entry, q);
    FirstMatchFinds(es + [entry], q);
  }

  /** What each list holds once the lists in `seen` have been through the add. */
  ghost predicate Updated(was: map<WatchArray, seq<Entry>>, seen: set<WatchArray>, q: Query, entry: Entry)
    reads was.Keys
  {
    forall a :: a in was ==> a.entries == if a in seen then Ensured(was[a], q, entry) else was[a]
  }

  /** A strategy the add is done with: it holds the list it held, or a new one of its own. */
  ghost predicate Settled(t: Strategy, held: WatchArray?, lists: set<WatchArray>, entry: Entry)
    reads t, t.watchlist
  {
    if held != null then t.HasList() && t.watchlist == held
    else t.configured ==> t.watchlist != null && t.watchlist !in lists && t.watchlist.entries == [entry]
  }

  lemma SeenGrows(held: seq<WatchArray?>, k: nat, i: nat)
    requires k < i <= |held| && held[k] != null
    ensures held[k] in SeenBefore(held, i)
  {
  }

  lemma SettledLists(t: Strategy, held: WatchArray?, was: map<WatchArray, seq<Entry>>, seen: set<WatchArray>, q: Query, entry: Entry)
    requires held != null ==> t.configured && held in was && held in seen
    requires Settled(t, held, was.Keys, entry) && Updated(was, seen, q, entry)
    ensures t.Listed() == AfterAdd(t.configured, if held == null then None else Some(was[held]), q, entry)
  {
    assert [] + [entry] == [entry];
  }

  ghost predicate AllDistinct(targets: seq<Strategy>) {
    forall i, j :: 0 <= i < j < |targets| ==> targets[i] != targets[j]
  }

  /** The add has been through the first i strategies. */
  ghost predicate Progress(targets: seq<Strategy>, held: seq<WatchArray?>, was: map<WatchArray, seq<Entry>>, i: nat, q: Query, entry: Entry)
    requires i <= |targets| == |held|
    reads targets, set t | t in targets :: t.watchlist, was.Keys
  {
    && (forall k :: i <= k < |targets| ==> targets[k].Held() == held[k])
    && (forall k :: 0 <= k < i ==> Settled(targets[k], held[k], was.Keys, entry))
    && Updated(was, SeenBefore(held, i), q, entry)
  }

  /** One turn of the add loop, seen from all strategies. */
  method AddAt(targets: seq<Strategy>, i: nat, ghost held: seq<WatchArray?>, ghost was: map<WatchArray, seq<Entry>>,
               ghost matching: set<WatchArray>, q: Query, entry: Entry, before: bool)
    returns (alreadyPresent: bool)
    requires AllDistinct(targets) && i < |targets| == |held| && Matches(entry, q)
    requires held[i] != null ==> held[i] in was && (held[i] in matching <==> Holds(was[held[i]], q))
    requires Progress(targets, held, was, i, q, entry) && before == Hits(held, matching, i)
    modifies targets[i], held[i]
    ensures Progress(targets, held, was, i + 1, q, entry) && alreadyPresent == Hits(held, matching, i + 1)
  {
    alreadyPresent := before;
    if held[i] != null {
      EnsuredTwice(was[held[i]], q, entry);
    }
    if targets[i].configured {
      var found := targets[i].EnsureListed(q, entry);
      alreadyPresent := alreadyPresent || found;
    }
    forall k | 0 <= k < |targets| && k != i ensures targets[k] != targets[i] {
    }
  }

  /** What the references and the lists say, once the loop is through. */
  lemma ProgressListed(targets: seq<Strategy>, held: seq<WatchArray?>, was: map<WatchArray, seq<Entry>>, k: nat, q: Query, entry: Entry)
    requires k < |targets| == |held| && Progress(targets, held, was, |targets|, q, entry)
    requires held[k] != null ==> targets[k].configured && held[k] in was
    ensures targets[k].Listed() == AfterAdd(targets[k].configured, if held[k] == null then None else Some(was[held[k]]), q, entry)
    ensures held[k] != null ==> targets[k].watchlist == held[k]
  {
    if held[k] != null {
      SeenGrows(held, k, |targets|);
    }
    SettledLists(targets[k], held[k], was, SeenBefore(held, |targets|), q, entry);
  }

  /** The add loop, for what the references and lists were before it. */
  method AddToAll(targets: seq<Strategy>, ghost held: seq<WatchArray?>, ghost was: map<WatchArray, seq<Entry>>,
                  ghost matching: set<WatchArray>, q: Query, entry: Entry)
    returns (alreadyPresent: bool)
    requires AllDistinct(targets) && |targets| == |held| && Matches(entry, q)
    requires forall k :: 0 <= k < |held| && held[k] != null ==> held[k] in was && (held[k] in matching <==> Holds(was[held[k]], q))
    requires Progress(targets, held, was, 0, q, entry)
    modifies targets, was.Keys
    ensures Progress(targets, held, was, |targets|, q, entry) && alreadyPresent == Hits(held, matching, |targets|)
  {
    alreadyPresent := false;
    var i := 0;
    while i < |targets|
      invariant i <= |targets| && Progress(targets, held, was, i, q, entry)
      invariant alreadyPresent == Hits(held, matching, i)
    {
      alreadyPresent := AddAt(targets, i, held, was, matching, q, entry, alreadyPresent);
      i := i + 1;
    }
  }

  /**
   * The add route. Whichever lists are shared, every configured strategy ends up with its own contents plus the
   * entry if it was missing, in the same array. The answer `alreadyPresent` is also given for a token no list had,
   * when two strategies share a list: the second one finds what the first has just pushed.
   */
  method AddToWatchlists(targets: seq<Strategy>, q: Query, entry: Entry) returns (alreadyPresent: bool)
    requires AllDistinct(targets) && Matches(entry, q)
    modifies targets, ListsOf(targets)
    ensures forall k :: 0 <= k < |targets| ==> targets[k].Listed() == AfterAdd(targets[k].configured, old(targets[k].Listed()), q, entry)
    ensures forall k :: 0 <= k < |targets| && old(targets[k].HasList()) ==> targets[k].watchlist == old(targets[k].watchlist)
    ensures alreadyPresent <==> Hits(old(HeldBy(targets)), old(Matching(ListsOf(targets), q)), |targets|)
  {
    ghost var held := HeldBy(targets);
    ghost var matching := Matching(ListsOf(targets), q);
    ghost var was := map a | a in ListsOf(targets) :: a.entries;
    forall k | 0 <= k < |targets| && held[k] != null ensures held[k] in ListsOf(targets) {
      assert targets[k] in targets;
    }
    alreadyPresent := AddToAll(targets, held, was, matching, q, entry);
    forall k | 0 <= k < |targets|
      ensures targets[k].Listed() == AfterAdd(targets[k].configured, old(targets[k].Listed()), q, entry)
      ensures old(targets[k].HasList()) ==> targets[k].watchlist == old(targets[k].watchlist)
    {
      ProgressListed(targets, held, was, k, q, entry);
    }
  }

  ghost predicate Takes(before: Option<seq<Entry>>, q: Query) {
    before.Some? && !Blocked(before.value, q) && Holds(before.value, q)
  }

  ghost predicate Shields(before: Option<seq<Entry>>, q: Query) {
    before.Some? && Blocked(before.value, q)
  }

  ghost predicate AnyTakes(before: seq<Option<seq<Entry>>>, q: Query) {
    exists l :: l in before && Takes(l, q)
  }

  ghost predicate AnyShields(before: seq<Option<seq<Entry>>>, q: Query) {
    exists l :: l in before && Shields(l, q)
  }

  lemma AnySnoc(before: seq<Option<seq<Entry>>>, l: Option<seq<Entry>>, q: Query)
    ensures AnyTakes(before + [l], q) <==> AnyTakes(before, q) || Takes(l, q)
    ensures AnyShields(before + [l], q) <==> AnyShields(before, q) || Shields(l, q)
  {
    assert forall x :: x in before + [l] <==> x in before || x == l;
  }

  /** The removal loop has been through the first i strategies. */
  ghost predicate Dropped(targets: seq<Strategy>, before: seq<Option<seq<Entry>>>, i: nat, q: Query)
    requires i <= |targets| == |before|
    reads targets, set t | t in targets :: t.watchlist
  {
    && (forall k :: i <= k < |targets| ==> targets[k].Listed() == before[k])
    && (forall k :: 0 <= k < i ==> targets[k].Listed() == AfterRemove(before[k], q))
  }

  ghost function ListedBy(targets: seq<Strategy>): (before: seq<Option<seq<Entry>>>)
    reads targets, set t | t in targets :: t.watchlist
  {
    seq(|targets|, k requires 0 <= k < |targets| reads targets, set t | t in targets :: t.watchlist => targets[k].Listed())
  }

  /** One turn of the removal loop, seen from all strategies. */
  method DropAt(targets: seq<Strategy>, i: nat, ghost before: seq<Option<seq<Entry>>>, q: Query) returns (took: bool, blocked: bool)
    requires AllDistinct(targets) && i < |targets| == |before|
    requires Dropped(targets, before, i, q)
    modifies targets[i]
    ensures Dropped(targets, before, i + 1, q)
    ensures took == Takes(before[i], q) && blocked == Shields(before[i], q)
  {
    took, blocked := false, false;
    assert targets[i].Listed() == before[i];
    if targets[i].HasList() {
      took, blocked := targets[i].DropMatches(q);
    }
    forall k | 0 <= k < |targets| && k != i ensures targets[k].Listed() == old(targets[k].Listed()) {
      assert targets[k] != targets[i];
    }
  }

  /**
   * The remove route. Every list loses the token unless its first match is shielded; no array is written to, so a
   * list held elsewhere keeps it. The request is refused when something was shielded and nothing was taken.
   */
  method RemoveFromWatchlists(targets: seq<Strategy>, q: Query) returns (removed: bool, refused: bool)
    requires AllDistinct(targets)
    modifies targets
    ensures forall k :: 0 <= k < |targets| ==> targets[k].Listed() == AfterRemove(old(targets[k].Listed()), q)
    ensures removed <==> AnyTakes(old(ListedBy(targets)), q)
    ensures refused <==> !removed && AnyShields(old(ListedBy(targets)), q)
  {
    removed := false;
    var blockedSystem := false;
    ghost var before := ListedBy(targets);
    var i := 0;
    while i < |targets|
      invariant i <= |targets| && Dropped(targets, before, i, q)
      invariant removed <==> AnyTakes(before[..i], q)
      invariant blockedSystem <==> AnyShields(before[..i], q)
    {
      assert before[..i + 1] == before[..i] + [before[i]];
      AnySnoc(before[..i], before[i], q);
      var took, blocked := DropAt(targets, i, before, q);
      removed, blockedSystem := removed || took, blockedSystem || blocked;
      i := i + 1;
    }
    assert before[..i] == before;
    refused := blockedSystem && !removed;
  }

  // ---------------------------------------------------------------- both routes, over every strategy

  /** What a strategy lists once the add route has made sure that it has a list. */
  function WithList(configured: bool, before: Option<seq<Entry>>): Option<seq<Entry>> {
    if configured then Some(if before.Some? then before.value else []) else before
  }

  /** An add and a removal that leaves what a strategy listed before, an empty list where there was none. */
  ghost predicate Restores(configured: bool, before: Option<seq<Entry>>, add: Query, entry: Entry, remove: Query) {
    AfterRemove(AfterAdd(configured, before, add, entry), remove) == WithList(configured, before)
  }

  /** The removal has nothing of its own to take, or a shielded token made both routes idle. */
  ghost predicate Untouched(list: seq<Entry>, add: Query, remove: Query) {
    !Holds(list, remove) || (Blocked(list, remove) && Holds(list, add))
  }

  /**
   * The add route followed by the remove route, over all strategies and however they share lists: every one of them
   * is back to what it listed, with an empty list where it had none, iff each list was untouched by the pair.
   */
  lemma AddThenRemoveEverywhereExactly(
    configured: seq<bool>, before: seq<Option<seq<Entry>>>, add: Query, entry: Entry, remove: Query)
    requires |configured| == |before| && forall k :: 0 <= k < |before| ==> (before[k].Some? ==> configured[k])
    requires Matches(entry, add) && !entry.system
    requires remove.addressKey == add.addressKey && (remove.network == add.network || remove.network == None)
    ensures (forall k :: 0 <= k < |before| ==> Restores(configured[k], before[k], add, entry, remove))
      <==> (forall k :: 0 <= k < |before| && before[k].Some? ==> Untouched(before[k].value, add, remove))
  {
    forall k | 0 <= k < |before|
      ensures Restores(configured[k], before[k], add, entry, remove)
        <==> (before[k].Some? ==> Untouched(before[k].value, add, remove))
    {
      if configured[k] {
        AddThenRemoveRestoresExactly(WithList(true, before[k]).value, add, entry, remove);
      }
    }
  }

  /**
   * The base strategy and a trader share a list, as the registry sets them up, and no list has the token: it is new,
   * and the add route still answers that it was present.
   */
  lemma SharedListAnswersPresent(list: WatchArray, base: Strategy, trader: Strategy, q: Query)
    requires base.configured && trader.configured && base.watchlist == list == trader.watchlist && list.entries == []
    ensures Matching(ListsOf([base, trader]), q) == {}
    ensures Hits(HeldBy([base, trader]), Matching(ListsOf([base, trader]), q), 2)
  {
    var held := HeldBy([base, trader]);
    assert held[0] == list == held[1];
    HitsExactly(held, Matching(ListsOf([base, trader]), q), 2);
  }
}
