/**
 * The stablecoin rows of the portfolio: one per wallet position, and the traders' idle reserves added on top. Amounts
 * are reals; Math.round is the floor of x + 1/2.
 */
module Portfolio {
  import opened Prelude

  datatype Kind = Native | Token | Stablecoin

  datatype Row = Row(kind: Kind, symbol: string, network: string, balance: real, price: real, value: real)

  /** An entry of `positions`: what the strategy parks on a network, if the position is there at all. */
  datatype Position = Position(network: string, stablecoinAmount: Option<real>)

  /** What the loop reads of a trader; a missing string is empty, an unreadable reserve is 0. */
  datatype Trader = Trader(
    symbol: string, tokenBalance: real, tokenPrice: real, network: string, tokenNetwork: string, reserve: real)

  function RoundCents(x: real): real {
    (x * 100.0 + 0.5).Floor as real / 100.0
  }

  function StableName(network: string): string {
    if network == "ethereum" then "USDC" else "USDT"
  }

  function StableRow(network: string, balance: real): Row {
    Row(Stablecoin, StableName(network), network, balance, 1.0, RoundCents(balance))
  }

  /** `cfg.tokenNetwork || cfg.network || 'bsc'` */
  function ReserveNetwork(t: Trader): string {
    if t.tokenNetwork != "" then t.tokenNetwork else if t.network != "" then t.network else "bsc"
  }

  function PositionRows(p: Position): seq<Row> {
    if p.stablecoinAmount.Some? && p.stablecoinAmount.value > 0.0
    then [StableRow(p.network, p.stablecoinAmount.value)] else []
  }

  function TokenRows(t: Trader): seq<Row> {
    if t.tokenBalance > 0.0 && t.symbol != ""
    then [Row(Token, t.symbol, if t.network != "" then t.network else "bsc", t.tokenBalance, t.tokenPrice,
              RoundCents(t.tokenBalance * t.tokenPrice))]
    else []
  }

  predicate IsStable(r: Row, network: string) {
    r.kind.Stablecoin? && r.network == network
  }

  /** A reserve goes into the first stablecoin row of its network, or becomes a new row. */
  function Credit(rows: seq<Row>, network: string, reserve: real): seq<Row> {
    if rows == [] then [StableRow(network, reserve)]
    else if IsStable(rows[0], network) then [Credited(rows[0], reserve)] + rows[1..]
    else [rows[0]] + Credit(rows[1..], network, reserve)
  }

  function Credited(r: Row, reserve: real): Row {
    r.(balance := r.balance + reserve, value := RoundCents(r.balance + reserve))
  }

  function WithPositions(rows: seq<Row>, ps: seq<Position>): seq<Row>
    decreases |ps|
  {
    if ps == [] then rows else WithPositions(rows + PositionRows(ps[0]), ps[1..])
  }

  function WithTrader(rows: seq<Row>, t: Trader): seq<Row> {
    if t.reserve > 0.0 then Credit(rows + TokenRows(t), ReserveNetwork(t), t.reserve) else rows + TokenRows(t)
  }

  function WithTraders(rows: seq<Row>, ts: seq<Trader>): seq<Row>
    decreases |ts|
  {
    if ts == [] then rows else WithTraders(WithTrader(rows, ts[0]), ts[1..])
  }

  function Book(natives: seq<Row>, ps: seq<Position>, ts: seq<Trader>): seq<Row> {
    WithTraders(WithPositions(natives, ps), ts)
  }

  // ---------------------------------------------------------------- what is held, without the table

  function Positive(x: real): real {
    if x > 0.0 then x else 0.0
  }

  function PositionAmount(p: Position): real {
    if p.stablecoinAmount.Some? then Positive(p.stablecoinAmount.value) else 0.0
  }

  function PositionsOn(ps: seq<Position>, network: string): real {
    if ps == [] then 0.0
    else (if ps[0].network == network then PositionAmount(ps[0]) else 0.0) + PositionsOn(ps[1..], network)
  }

  function ReserveOn(t: Trader, network: string): real {
    if ReserveNetwork(t) == network then Positive(t.reserve) else 0.0
  }

  function ReservesOn(ts: seq<Trader>, network: string): real {
    if ts == [] then 0.0 else ReserveOn(ts[0], network) + ReservesOn(ts[1..], network)
  }

  /** What the wallet holds on a network: the parked position and what the traders have not deployed. */
  function HeldOn(ps: seq<Position>, ts: seq<Trader>, network: string): real {
    PositionsOn(ps, network) + ReservesOn(ts, network)
  }

  function AllPositions(ps: seq<Position>): real {
    if ps == [] then 0.0 else PositionAmount(ps[0]) + AllPositions(ps[1..])
  }

  function AllReserves(ts: seq<Trader>): real {
    if ts == [] then 0.0 else Positive(ts[0].reserve) + AllReserves(ts[1..])
  }

  // ---------------------------------------------------------------- what the table says

  function StableRowsOn(rows: seq<Row>, network: string): seq<Row> {
    if rows == [] then []
    else (if IsStable(rows[0], network) then [rows[0]] else []) + StableRowsOn(rows[1..], network)
  }

  function OtherRows(rows: seq<Row>): seq<Row> {
    if rows == [] then []
    else (if rows[0].kind.Stablecoin? then [] else [rows[0]]) + OtherRows(rows[1..])
  }

  function StableTotal(rows: seq<Row>): real {
    if rows == [] then 0.0 else (if rows[0].kind.Stablecoin? then rows[0].balance else 0.0) + StableTotal(rows[1..])
  }

  function AllTokenRows(ts: seq<Trader>): seq<Row> {
    if ts == [] then [] else TokenRows(ts[0]) + AllTokenRows(ts[1..])
  }

  /** The one row of a network that holds an amount, if there is something to show. */
  function Shown(network: string, amount: real): seq<Row> {
    if amount > 0.0 then [StableRow(network, amount)] else []
  }

  lemma {:induction false} StableAppended(rows: seq<Row>, more: seq<Row>, network: string)
    ensures StableRowsOn(rows + more, network) == StableRowsOn(rows, network) + StableRowsOn(more, network)
  {
    if rows == [] {
      assert rows + more == more;
    } else {
      StableAppended(rows[1..], more, network);
      assert (rows + more)[1..] == rows[1..] + more;
      var head := if IsStable(rows[0], network) then [rows[0]] else [];
      Associates(head, StableRowsOn(rows[1..], network), StableRowsOn(more, network));
    }
  }

  lemma {:induction false} OthersAppended(rows: seq<Row>, more: seq<Row>)
    ensures OtherRows(rows + more) == OtherRows(rows) + OtherRows(more)
  {
    if rows == [] {
      assert rows + more == more;
    } else {
      OthersAppended(rows[1..], more);
      assert (rows + more)[1..] == rows[1..] + more;
      var head := if rows[0].kind.Stablecoin? then [] else [rows[0]];
      Associates(head, OtherRows(rows[1..]), OtherRows(more));
    }
  }

  lemma {:induction false} TotalAppended(rows: seq<Row>, more: seq<Row>)
    ensures StableTotal(rows + more) == StableTotal(rows) + StableTotal(more)
  {
    if rows == [] {
      assert rows + more == more;
    } else {
      TotalAppended(rows[1..], more);
      assert (rows + more)[1..] == rows[1..] + more;
    }
  }

  lemma Appended(rows: seq<Row>, more: seq<Row>, network: string)
    ensures StableRowsOn(rows + more, network) == StableRowsOn(rows, network) + StableRowsOn(more, network)
    ensures OtherRows(rows + more) == OtherRows(rows) + OtherRows(more)
    ensures StableTotal(rows + more) == StableTotal(rows) + StableTotal(more)
  {
    StableAppended(rows, more, network);
    OthersAppended(rows, more);
    TotalAppended(rows, more);
  }

  lemma {:induction false} CreditElsewhere(rows: seq<Row>, net: string, reserve: real, network: string)
    requires net != network
    ensures StableRowsOn(Credit(rows, net, reserve), network) == StableRowsOn(rows, network)
  {
    if rows == [] {
      assert [StableRow(net, reserve)][1..] == [];
    } else if IsStable(rows[0], net) {
      assert Credit(rows, net, reserve)[1..] == rows[1..];
    } else {
      CreditElsewhere(rows[1..], net, reserve, network);
      assert Credit(rows, net, reserve)[1..] == Credit(rows[1..], net, reserve);
    }
  }

  lemma {:induction false} CreditHere(rows: seq<Row>, net: string, reserve: real)
    ensures var here := StableRowsOn(rows, net);
      StableRowsOn(Credit(rows, net, reserve), net)
      == if here == [] then [StableRow(net, reserve)] else [Credited(here[0], reserve)] + here[1..]
  {
    if rows == [] {
      assert [StableRow(net, reserve)][1..] == [];
    } else if IsStable(rows[0], net) {
      assert Credit(rows, net, reserve)[1..] == rows[1..];
    } else {
      CreditHere(rows[1..], net, reserve);
      assert Credit(rows, net, reserve)[1..] == Credit(rows[1..], net, reserve);
    }
  }

  lemma {:induction false} CreditAddsUp(rows: seq<Row>, net: string, reserve: real)
    ensures OtherRows(Credit(rows, net, reserve)) == OtherRows(rows)
    ensures StableTotal(Credit(rows, net, reserve)) == StableTotal(rows) + reserve
  {
    if rows == [] {
      assert [StableRow(net, reserve)][1..] == [];
    } else if IsStable(rows[0], net) {
      assert Credit(rows, net, reserve)[1..] == rows[1..];
    } else {
      CreditAddsUp(rows[1..], net, reserve);
      assert Credit(rows, net, reserve)[1..] == Credit(rows[1..], net, reserve);
    }
  }

  // ---------------------------------------------------------------- conservation

  ghost predicate DistinctNetworks(ps: seq<Position>) {
    forall i, j :: 0 <= i < j < |ps| ==> ps[i].network != ps[j].network
  }

  lemma {:induction false} AbsentPosition(ps: seq<Position>, network: string)
    requires forall p :: p in ps ==> p.network != network
    ensures PositionsOn(ps, network) == 0.0
  {
    if ps != [] {
      assert ps[0] in ps && forall p :: p in ps[1..] ==> p in ps;
      AbsentPosition(ps[1..], network);
    }
  }

  lemma PositionRowFacts(p: Position, network: string)
    ensures StableRowsOn(PositionRows(p), network) == Shown(network, if p.network == network then PositionAmount(p) else 0.0)
    ensures OtherRows(PositionRows(p)) == [] && StableTotal(PositionRows(p)) == PositionAmount(p)
  {
    if PositionRows(p) != [] {
      assert PositionRows(p)[1..] == [];
    }
  }

  lemma TokenRowFacts(t: Trader, network: string)
    ensures StableRowsOn(TokenRows(t), network) == [] && StableTotal(TokenRows(t)) == 0.0
    ensures OtherRows(TokenRows(t)) == TokenRows(t)
  {
    if TokenRows(t) != [] {
      assert TokenRows(t)[1..] == [];
    }
  }

  lemma {:induction false} PositionsShown(rows: seq<Row>, ps: seq<Position>, network: string)
    requires DistinctNetworks(ps)
    requires StableRowsOn(rows, network) == [] || forall p :: p in ps ==> p.network != network
    ensures StableRowsOn(WithPositions(rows, ps), network) ==
      StableRowsOn(rows, network) + Shown(network, PositionsOn(ps, network))
    ensures OtherRows(WithPositions(rows, ps)) == OtherRows(rows)
    ensures StableTotal(WithPositions(rows, ps)) == StableTotal(rows) + AllPositions(ps)
    decreases |ps|
  {
    if ps != [] {
      var p := ps[0];
      var next := rows + PositionRows(p);
      Appended(rows, PositionRows(p), network);
      PositionRowFacts(p, network);
      assert p in ps && forall x :: x in ps[1..] ==> x in ps;
      assert forall i :: 0 <= i < |ps[1..]| ==> ps[1..][i] == ps[i + 1];
      if p.network == network {
        assert forall x :: x in ps[1..] ==> x.network != network;
        AbsentPosition(ps[1..], network);
      }
      PositionsShown(next, ps[1..], network);
    }
  }

  ghost predicate Shows(rows: seq<Row>, network: string, amount: real) {
    amount >= 0.0 && StableRowsOn(rows, network) == Shown(network, amount)
  }

  lemma TraderShown(rows: seq<Row>, t: Trader, network: string, amount: real)
    requires Shows(rows, network, amount)
    ensures Shows(WithTrader(rows, t), network, amount + ReserveOn(t, network))
  {
    StableAppended(rows, TokenRows(t), network);
    TokenRowFacts(t, network);
    if t.reserve > 0.0 {
      if ReserveNetwork(t) == network {
        CreditHere(rows + TokenRows(t), network, t.reserve);
      } else {
        CreditElsewhere(rows + TokenRows(t), ReserveNetwork(t), t.reserve, network);
      }
    }
  }

  lemma TraderAdds(rows: seq<Row>, t: Trader)
    ensures OtherRows(WithTrader(rows, t)) == OtherRows(rows) + TokenRows(t)
    ensures StableTotal(WithTrader(rows, t)) == StableTotal(rows) + Positive(t.reserve)
  {
    Appended(rows, TokenRows(t), "");
    TokenRowFacts(t, "");
    CreditAddsUp(rows + TokenRows(t), ReserveNetwork(t), t.reserve);
  }

  /** An amount with the traders' reserves added one by one. */
  function HeldWith(amount: real, ts: seq<Trader>, network: string): real
    decreases |ts|
  {
    if ts == [] then amount else HeldWith(amount + ReserveOn(ts[0], network), ts[1..], network)
  }

  lemma {:induction false} HeldIsSum(amount: real, ts: seq<Trader>, network: string)
    ensures HeldWith(amount, ts, network) == amount + ReservesOn(ts, network)
    decreases |ts|
  {
    if ts != [] {
      HeldIsSum(amount + ReserveOn(ts[0], network), ts[1..], network);
    }
  }

  /** What every trader keeps true of the table and the amount, all of them do. */
  lemma {:induction false} EveryTraderKeeps(rows: seq<Row>, amount: real, ts: seq<Trader>, network: string, kept: (seq<Row>, real) -> bool)
    requires kept(rows, amount)
    requires forall r, x, t {:trigger kept(r, x), WithTrader(r, t)} :: kept(r, x) ==> kept(WithTrader(r, t), x + ReserveOn(t, network))
    ensures kept(WithTraders(rows, ts), HeldWith(amount, ts, network))
    decreases |ts|
  {
    if ts != [] {
      EveryTraderKeeps(WithTrader(rows, ts[0]), amount + ReserveOn(ts[0], network), ts[1..], network, kept);
    }
  }

  lemma TradersShown(rows: seq<Row>, ts: seq<Trader>, network: string, amount: real)
    requires Shows(rows, network, amount)
    ensures Shows(WithTraders(rows, ts), network, HeldWith(amount, ts, network))
  {
    var kept := (r: seq<Row>, x: real) => Shows(r, network, x);
    forall r, x, t | Shows(r, network, x) ensures Shows(WithTrader(r, t), network, x + ReserveOn(t, network)) {
      TraderShown(r, t, network, x);
    }
    EveryTraderKeeps(rows, amount, ts, network, kept);
  }

  lemma {:induction false} TradersKeepOthers(rows: seq<Row>, ts: seq<Trader>)
    ensures OtherRows(WithTraders(rows, ts)) == OtherRows(rows) + AllTokenRows(ts)
    decreases |ts|
  {
    if ts != [] {
      TraderAdds(rows, ts[0]);
      TradersKeepOthers(WithTrader(rows, ts[0]), ts[1..]);
      Associates(OtherRows(rows), TokenRows(ts[0]), AllTokenRows(ts[1..]));
    }
  }

  lemma {:induction false} TradersAddUp(rows: seq<Row>, ts: seq<Trader>)
    ensures StableTotal(WithTraders(rows, ts)) == StableTotal(rows) + AllReserves(ts)
    decreases |ts|
  {
    if ts != [] {
      TraderAdds(rows, ts[0]);
      TradersAddUp(WithTrader(rows, ts[0]), ts[1..]);
    }
  }

  lemma {:induction false} PositionsNotNegative(ps: seq<Position>, network: string)
    ensures PositionsOn(ps, network) >= 0.0
  {
    if ps != [] {
      PositionsNotNegative(ps[1..], network);
    }
  }

  lemma {:induction false} NativesNotShown(natives: seq<Row>, network: string)
    requires forall r :: r in natives ==> !r.kind.Stablecoin?
    ensures StableRowsOn(natives, network) == []
  {
    if natives != [] {
      assert natives[0] in natives;
      NativesNotShown(natives[1..], network);
    }
  }

  lemma {:induction false} NativesAreOthers(natives: seq<Row>)
    requires forall r :: r in natives ==> !r.kind.Stablecoin?
    ensures OtherRows(natives) == natives && StableTotal(natives) == 0.0
  {
    if natives != [] {
      assert natives[0] in natives;
      NativesAreOthers(natives[1..]);
    }
  }

  lemma PositionRowsShown(natives: seq<Row>, ps: seq<Position>, network: string)
    requires forall r :: r in natives ==> !r.kind.Stablecoin?
    requires DistinctNetworks(ps)
    ensures StableRowsOn(WithPositions(natives, ps), network) == Shown(network, PositionsOn(ps, network))
  {
    NativesNotShown(natives, network);
    PositionsShown(natives, ps, network);
    NothingBefore(Shown(network, PositionsOn(ps, network)));
  }

  lemma NothingBefore<T>(s: seq<T>)
    ensures [] + s == s
  {
  }

  /**
   * Every network shows exactly one stablecoin row, holding its positive position plus the positive reserves of its
   * traders with the value rounded from that balance, or none when nothing is held.
   */
  lemma OneRowPerNetwork(natives: seq<Row>, ps: seq<Position>, ts: seq<Trader>, network: string)
    requires forall r :: r in natives ==> !r.kind.Stablecoin?
    requires DistinctNetworks(ps)
    ensures StableRowsOn(Book(natives, ps, ts), network) == Shown(network, HeldOn(ps, ts, network))
  {
    var amount := PositionsOn(ps, network);
    PositionRowsShown(natives, ps, network);
    PositionsNotNegative(ps, network);
    TradersShown(WithPositions(natives, ps), ts, network, amount);
    HeldIsSum(amount, ts, network);
  }

  /** Over all networks nothing is lost or counted twice; the other rows stay as they were, in order. */
  lemma NothingLost(natives: seq<Row>, ps: seq<Position>, ts: seq<Trader>)
    requires forall r :: r in natives ==> !r.kind.Stablecoin?
    requires DistinctNetworks(ps)
    ensures StableTotal(Book(natives, ps, ts)) == AllPositions(ps) + AllReserves(ts)
    ensures OtherRows(Book(natives, ps, ts)) == natives + AllTokenRows(ts)
  {
    NativesNotShown(natives, "");
    NativesAreOthers(natives);
    PositionsShown(natives, ps, "");
    TradersKeepOthers(WithPositions(natives, ps), ts);
    TradersAddUp(WithPositions(natives, ps), ts);
  }

  lemma {:induction false} ReservesAppend(a: seq<Trader>, b: seq<Trader>, network: string)
    ensures ReservesOn(a + b, network) == ReservesOn(a, network) + ReservesOn(b, network)
  {
    if a == [] {
      assert a + b == b;
    } else {
      ReservesAppend(a[1..], b, network);
      assert (a + b)[1..] == a[1..] + b;
    }
  }

  lemma CutOut(ts: seq<Trader>, j: nat)
    requires j < |ts|
    ensures ts == ts[..j] + ([ts[j]] + ts[j + 1..])
    ensures multiset(ts) == multiset{ts[j]} + multiset(ts[..j] + ts[j + 1..])
  {
    assert ts == ts[..j] + ([ts[j]] + ts[j + 1..]);
  }

  lemma ReservesCutOut(ts: seq<Trader>, j: nat, network: string)
    requires j < |ts|
    ensures ReservesOn(ts, network) == ReserveOn(ts[j], network) + ReservesOn(ts[..j] + ts[j + 1..], network)
  {
    CutOut(ts, j);
    ReservesAppend(ts[..j], [ts[j]] + ts[j + 1..], network);
    ReservesAppend(ts[..j], ts[j + 1..], network);
    assert ([ts[j]] + ts[j + 1..])[1..] == ts[j + 1..];
  }

  lemma Cancelled<T>(one: multiset<T>, a: multiset<T>, b: multiset<T>)
    requires one + a == one + b
    ensures a == b
  {
    assert one + a - one == a && one + b - one == b;
  }

  lemma RestsMatch(a: seq<Trader>, b: seq<Trader>, j: nat)
    requires multiset(a) == multiset(b) && a != [] && j < |b| && b[j] == a[0]
    ensures multiset(a[1..]) == multiset(b[..j] + b[j + 1..])
  {
    CutOut(a, 0);
    assert a[..0] + a[1..] == a[1..];
    CutOut(b, j);
    Cancelled(multiset{a[0]}, multiset(a[1..]), multiset(b[..j] + b[j + 1..]));
  }

  lemma {:induction false} ReservesUnordered(a: seq<Trader>, b: seq<Trader>, network: string)
    requires multiset(a) == multiset(b)
    ensures ReservesOn(a, network) == ReservesOn(b, network)
    decreases |a|
  {
    if a == [] {
      assert |multiset(b)| == 0;
    } else {
      assert a[0] in multiset(b);
      var j :| 0 <= j < |b| && b[j] == a[0];
      RestsMatch(a, b, j);
      ReservesUnordered(a[1..], b[..j] + b[j + 1..], network);
      ReservesCutOut(b, j, network);
    }
  }

  /** In which order the traders are listed does not change any network's row. */
  lemma TraderOrderIsIrrelevant(natives: seq<Row>, ps: seq<Position>, ts: seq<Trader>, us: seq<Trader>, network: string)
    requires forall r :: r in natives ==> !r.kind.Stablecoin?
    requires DistinctNetworks(ps) && multiset(ts) == multiset(us)
    ensures StableRowsOn(Book(natives, ps, ts), network) == StableRowsOn(Book(natives, ps, us), network)
  {
    OneRowPerNetwork(natives, ps, ts, network);
    OneRowPerNetwork(natives, ps, us, network);
    ReservesUnordered(ts, us, network);
    assert HeldOn(ps, ts, network) == HeldOn(ps, us, network);
  }

  // ---------------------------------------------------------------- what a row says

  /** The amount in whole cents that is nearest to x; of two, the greater. */
  ghost predicate NearestCent(r: real, x: real) {
    r * 100.0 == (r * 100.0).Floor as real && x - 0.005 < r <= x + 0.005
  }

  lemma RoundedToCents(x: real)
    ensures NearestCent(RoundCents(x), x)
  {
    var cents := (x * 100.0 + 0.5).Floor;
    assert RoundCents(x) * 100.0 == cents as real;
  }

  /** The row shows what its network's coin is, at par, with its value to the cent. */
  ghost predicate StableRowTells(r: Row, network: string, amount: real) {
    && r.kind.Stablecoin? && r.network == network && r.balance == amount && r.price == 1.0
    && NearestCent(r.value, amount) && r.symbol == if network == "ethereum" then "USDC" else "USDT"
  }

  /** What each network shows, in the table's own figures: one row with the amount held and its value, or none. */
  lemma StableRowsTell(natives: seq<Row>, ps: seq<Position>, ts: seq<Trader>, network: string)
    requires forall r :: r in natives ==> !r.kind.Stablecoin?
    requires DistinctNetworks(ps)
    ensures var shown, held := StableRowsOn(Book(natives, ps, ts), network), HeldOn(ps, ts, network);
      if held > 0.0 then |shown| == 1 && StableRowTells(shown[0], network, held) else shown == []
  {
    OneRowPerNetwork(natives, ps, ts, network);
    RoundedToCents(HeldOn(ps, ts, network));
  }

  /** The row of a trader's token: on the trader's network, or on bsc if it names none, with the value to the cent. */
  ghost predicate TokenRowTells(r: Row, t: Trader) {
    && r.kind.Token? && r.symbol == t.symbol && r.balance == t.tokenBalance && r.price == t.tokenPrice
    && r.network == (if t.network == "" then "bsc" else t.network) && NearestCent(r.value, t.tokenBalance * t.tokenPrice)
  }

  /** The traders that show a token row, in their order. */
  function Holders(ts: seq<Trader>): seq<Trader> {
    if ts == [] then []
    else (if ts[0].tokenBalance > 0.0 && ts[0].symbol != "" then [ts[0]] else []) + Holders(ts[1..])
  }

  lemma {:induction false} TokenRowsOf(ts: seq<Trader>)
    ensures |AllTokenRows(ts)| == |Holders(ts)|
    ensures forall i :: 0 <= i < |Holders(ts)| ==> TokenRowTells(AllTokenRows(ts)[i], Holders(ts)[i])
  {
    if ts != [] {
      TokenRowsOf(ts[1..]);
      RoundedToCents(ts[0].tokenBalance * ts[0].tokenPrice);
    }
  }

  /** Besides the stablecoins the table lists the native coins, then one row for each trader that holds its token. */
  lemma TokenRowsTell(natives: seq<Row>, ps: seq<Position>, ts: seq<Trader>)
    requires forall r :: r in natives ==> !r.kind.Stablecoin?
    requires DistinctNetworks(ps)
    ensures var others := OtherRows(Book(natives, ps, ts));
      && natives <= others && |others| == |natives| + |Holders(ts)|
      && forall i :: 0 <= i < |Holders(ts)| ==> TokenRowTells(others[|natives| + i], Holders(ts)[i])
  {
    NothingLost(natives, ps, ts);
    TokenRowsOf(ts);
  }

  /** A reserve belongs to the token's network, else to the trader's, else to bsc. */
  lemma ReserveIsFiled(t: Trader, network: string)
    ensures ReserveOn(t, network) ==
      if t.reserve > 0.0
        && network == (if t.tokenNetwork == "" then (if t.network == "" then "bsc" else t.network) else t.tokenNetwork)
      then t.reserve else 0.0
  {
  }

  // ---------------------------------------------------------------- the table, built in place

  lemma {:induction false} CreditAt(rows: seq<Row>, j: nat, network: string, reserve: real)
    requires j <= |rows| && forall i :: 0 <= i < j ==> !IsStable(rows[i], network)
    ensures j == |rows| ==> Credit(rows, network, reserve) == rows + [StableRow(network, reserve)]
    ensures j < |rows| && IsStable(rows[j], network) ==> Credit(rows, network, reserve) == rows[j := Credited(rows[j], reserve)]
  {
    if j > 0 {
      CreditAt(rows[1..], j - 1, network, reserve);
    }
  }

  class Table {
    var tokens: seq<Row>

    constructor (natives: seq<Row>)
      ensures tokens == natives
    {
      tokens := natives;
    }

    method AddPositions(positions: seq<Position>)
      modifies this
      ensures tokens == WithPositions(old(tokens), positions)
    {
      for i := 0 to |positions|
        invariant WithPositions(tokens, positions[i..]) == WithPositions(old(tokens), positions)
      {
        var p := positions[i];
        if p.stablecoinAmount.Some? && p.stablecoinAmount.value > 0.0 {
          tokens := tokens + [StableRow(p.network, p.stablecoinAmount.value)];
        } else {
          assert tokens + PositionRows(p) == tokens;
        }
      }
    }

    method CreditReserve(network: string, reserve: real)
      modifies this
      ensures tokens == Credit(old(tokens), network, reserve)
    {
      var j := 0;
      while j < |tokens| && !IsStable(tokens[j], network)
        invariant j <= |tokens| && tokens == old(tokens)
        invariant forall i :: 0 <= i < j ==> !IsStable(tokens[i], network)
      {
        j := j + 1;
      }
      CreditAt(tokens, j, network, reserve);
      if j < |tokens| {
        var balance := tokens[j].balance + reserve;
        tokens := tokens[j := tokens[j].(balance := balance, value := RoundCents(balance))];
      } else {
        tokens := tokens + [StableRow(network, reserve)];
      }
    }

    method AddTraders(traders: seq<Trader>)
      modifies this
      ensures tokens == WithTraders(old(tokens), traders)
    {
      for i := 0 to |traders|
        invariant WithTraders(tokens, traders[i..]) == WithTraders(old(tokens), traders)
      {
        var t := traders[i];
        ghost var rows := tokens;
        tokens := tokens + TokenRows(t);
        if t.reserve > 0.0 {
          CreditReserve(ReserveNetwork(t), t.reserve);
        }
        assert tokens == WithTrader(rows, t);
      }
    }
  }
}
