/** The aggregation of `TicketConsumer`: `calculateCostMetrics` over a list of
    tickets, and the grouping of a list by game that
    `getTicketsByBookmakerIdGroupedByGame` applies it to. Money is exact. */
module Metrics {
  import opened Wrappers
  import opened TicketModel
  import opened Rounding

  /** Both amounts that `calculateCostMetrics` unboxes are present. */
  predicate Priced(t: Ticket) {
    t.stake.Some? && t.totalReturn.Some?
  }

  predicate AllPriced(ds: seq<TicketData>) {
    forall d :: d in ds ==> Priced(d.ticket)
  }

  function Stake(d: TicketData): real
    requires Priced(d.ticket)
  {
    d.ticket.stake.value
  }

  /** What the bookmaker pays out beyond the stake it took. */
  function Net(d: TicketData): real
    requires Priced(d.ticket)
  {
    d.ticket.totalReturn.value - d.ticket.stake.value
  }

  /** The stream sum `mapToDouble(f).sum()`, in exact arithmetic. */
  function Sum(ds: seq<TicketData>, f: TicketData --> real): real
    requires forall d :: d in ds ==> f.requires(d)
    decreases |ds|
  {
    if ds == [] then 0.0 else f(ds[0]) + Sum(ds[1..], f)
  }

  lemma {:induction false} SumConcat(a: seq<TicketData>, b: seq<TicketData>, f: TicketData --> real)
    requires forall d :: d in a + b ==> f.requires(d)
    ensures Sum(a + b, f) == Sum(a, f) + Sum(b, f)
    decreases |a|
  {
    if a == [] {
      assert a + b == b;
    } else {
      assert (a + b)[1..] == a[1..] + b;
      SumConcat(a[1..], b, f);
    }
  }

  /** Taking one term out of a sum. */
  lemma {:induction false} SumRemove(ys: seq<TicketData>, j: nat, f: TicketData --> real)
    requires j < |ys|
    requires forall d :: d in ys ==> f.requires(d)
    ensures forall d :: d in ys[..j] + ys[j + 1..] ==> f.requires(d)
    ensures Sum(ys, f) == f(ys[j]) + Sum(ys[..j] + ys[j + 1..], f)
  {
    assert ys == ys[..j] + ([ys[j]] + ys[j + 1..]);
    SumConcat(ys[..j], [ys[j]] + ys[j + 1..], f);
    SumConcat([ys[j]], ys[j + 1..], f);
    SumConcat(ys[..j], ys[j + 1..], f);
  }

  /** Taking one element out of a sequence takes it out of its multiset. */
  lemma MultisetRemove(ys: seq<TicketData>, j: nat)
    requires j < |ys|
    ensures multiset(ys[..j] + ys[j + 1..]) == multiset(ys) - multiset{ys[j]}
  {
    assert ys == ys[..j] + [ys[j]] + ys[j + 1..];
  }

  /** A sum does not depend on the order of its terms. */
  lemma {:induction false} SumPermutation(xs: seq<TicketData>, ys: seq<TicketData>, f: TicketData --> real)
    requires multiset(xs) == multiset(ys)
    requires forall d :: d in xs ==> f.requires(d)
    ensures forall d :: d in ys ==> f.requires(d)
    ensures Sum(xs, f) == Sum(ys, f)
    decreases |xs|
  {
    forall d | d in ys ensures f.requires(d) {
      assert d in multiset(ys);
    }
    if xs != [] {
      var x := xs[0];
      assert x in multiset(ys);
      var j :| 0 <= j < |ys| && ys[j] == x;
      var rest := ys[..j] + ys[j + 1..];
      MultisetRemove(ys, j);
      assert xs == [x] + xs[1..];
      assert multiset(xs[1..]) == multiset(rest);
      SumPermutation(xs[1..], rest, f);
      SumRemove(ys, j, f);
    }
  }

  /** The margin rule: a percentage rounded to two places when there is a
      positive turnover and a non-zero result, and 0 otherwise. */
  predicate MarginPolicy(m: CostMetrics) {
    if m.turnover > 0.0 && m.profitLoss != 0.0 then
      RoundedFrom(m.margin, m.profitLoss / m.turnover * 100.0)
    else
      m.margin == 0.0
  }

  /** `calculateCostMetrics`: unboxing an absent stake or total return throws. */
  function CalculateCostMetrics(ds: seq<TicketData>): (r: Result<CostMetrics, Fault>)
    ensures r.Err? <==> !AllPriced(ds)
    ensures r.Ok? ==> r.value.numberOfTickets == |ds|
    ensures r.Ok? ==> RoundedFrom(r.value.turnover, Sum(ds, Stake))
    ensures r.Ok? ==> RoundedFrom(r.value.profitLoss, Sum(ds, Net))
    ensures r.Ok? ==> MarginPolicy(r.value)
  {
    if !AllPriced(ds) then
      Err(NullPointer)
    else
      var turnover := Round2(Sum(ds, Stake));
      var profitLoss := Round2(Sum(ds, Net));
      var margin := if turnover > 0.0 && profitLoss != 0.0 then Round2(profitLoss / turnover * 100.0) else 0.0;
      Ok(CostMetrics(|ds|, turnover, profitLoss, margin))
  }

  /** The metrics depend only on which tickets there are, not on their order. */
  lemma {:induction false} CostMetricsPermutation(xs: seq<TicketData>, ys: seq<TicketData>)
    requires multiset(xs) == multiset(ys)
    ensures CalculateCostMetrics(xs) == CalculateCostMetrics(ys)
  {
    assert forall d :: d in xs <==> d in ys by {
      forall d ensures d in xs <==> d in ys {
        assert d in xs <==> d in multiset(xs);
        assert d in ys <==> d in multiset(ys);
      }
    }
    if AllPriced(xs) {
      SumPermutation(xs, ys, Stake);
      SumPermutation(xs, ys, Net);
      assert |xs| == |multiset(xs)| == |ys|;
    }
  }

  lemma {:induction false} ZeroStakeSum(ds: seq<TicketData>)
    requires AllPriced(ds)
    requires forall d :: d in ds ==> d.ticket.stake == Some(0.0)
    ensures Sum(ds, Stake) == 0.0
    decreases |ds|
  {
    if ds != [] {
      assert ds[0] in ds;
      ZeroStakeSum(ds[1..]);
    }
  }

  /** No turnover, no margin: a group whose stakes are all zero (the empty
      group included) reports turnover 0 and margin 0 rather than dividing. */
  lemma {:induction false} ZeroTurnoverZeroMargin(ds: seq<TicketData>)
    requires AllPriced(ds)
    requires forall d :: d in ds ==> d.ticket.stake == Some(0.0)
    ensures CalculateCostMetrics(ds).Ok?
    ensures CalculateCostMetrics(ds).value.turnover == 0.0
    ensures CalculateCostMetrics(ds).value.margin == 0.0
    ensures ds == [] ==> CalculateCostMetrics(ds) == Ok(CostMetrics(0, 0.0, 0.0, 0.0))
  {
    ZeroStakeSum(ds);
    Round2OfCents(0.0);
  }

  /** With a positive turnover the margin never has the opposite sign of the
      profit or loss. */
  lemma {:induction false} MarginSign(ds: seq<TicketData>)
    requires CalculateCostMetrics(ds).Ok?
    requires CalculateCostMetrics(ds).value.turnover > 0.0
    ensures var m := CalculateCostMetrics(ds).value;
            (m.profitLoss > 0.0 ==> m.margin >= 0.0) && (m.profitLoss < 0.0 ==> m.margin <= 0.0)
  {
    var m := CalculateCostMetrics(ds).value;
    var q := m.profitLoss / m.turnover * 100.0;
    Round2OfCents(0.0);
    if m.profitLoss > 0.0 {
      assert q > 0.0;
      Round2Monotone(0.0, q);
    } else if m.profitLoss < 0.0 {
      assert q < 0.0;
      Round2Monotone(q, 0.0);
    }
  }

  // Grouping by game

  /** Every ticket has a game (`groupingBy` throws on a null key). */
  predicate AllGamed(ds: seq<TicketData>) {
    forall d :: d in ds ==> d.ticket.game.Some?
  }

  /** The distinct games of the tickets. */
  function Games(ds: seq<TicketData>): set<string> {
    set d | d in ds && d.ticket.game.Some? :: d.ticket.game.value
  }

  /** Reference definition of one group: the tickets of game `g`, in list
      order. As a multiset it is `ds` cut down to the tickets of that game. */
  function WithGame(ds: seq<TicketData>, g: string): (r: seq<TicketData>)
    ensures forall d | d in r :: d in ds
    ensures forall d | d in ds ::
              multiset(r)[d] == if d.ticket.game == Some(g) then multiset(ds)[d] else 0
    decreases |ds|
  {
    if ds == [] then []
    else
      assert ds == [ds[0]] + ds[1..];
      (if ds[0].ticket.game == Some(g) then [ds[0]] else []) + WithGame(ds[1..], g)
  }

  lemma WithGameMember(ds: seq<TicketData>, g: string, d: TicketData)
    ensures d in WithGame(ds, g) <==> d in ds && d.ticket.game == Some(g)
  {
    assert d in WithGame(ds, g) <==> d in multiset(WithGame(ds, g));
    assert d in ds <==> d in multiset(ds);
  }

  /** A game none of the tickets has gets an empty group. */
  lemma WithGameAbsent(ds: seq<TicketData>, g: string)
    requires g !in Games(ds)
    ensures WithGame(ds, g) == []
  {
    var r := WithGame(ds, g);
    if r != [] {
      WithGameMember(ds, g, r[0]);
    }
  }

  lemma GamesCons(ds: seq<TicketData>)
    requires ds != [] && ds[0].ticket.game.Some?
    ensures Games(ds) == {ds[0].ticket.game.value} + Games(ds[1..])
  {
    assert ds == [ds[0]] + ds[1..];
  }

  /** `Collectors.groupingBy(game, toList())`: one pass over the list, each
      ticket added to the list of its game, first occurrences first. */
  function GroupByGame(ds: seq<TicketData>): map<string, seq<TicketData>>
    requires AllGamed(ds)
    decreases |ds|
  {
    if ds == [] then map[]
    else
      var rest := GroupByGame(ds[1..]);
      var g := ds[0].ticket.game.value;
      rest[g := [ds[0]] + (if g in rest then rest[g] else [])]
  }

  /** The one-pass grouping yields exactly the games as keys and, under each,
      the reference group of that game. */
  lemma {:induction false} GroupByGameCorrect(ds: seq<TicketData>)
    requires AllGamed(ds)
    ensures GroupByGame(ds).Keys == Games(ds)
    ensures forall g :: g in GroupByGame(ds) ==> GroupByGame(ds)[g] == WithGame(ds, g)
    decreases |ds|
  {
    if ds != [] {
      GroupByGameCorrect(ds[1..]);
      GamesCons(ds);
      var rest := GroupByGame(ds[1..]);
      var g := ds[0].ticket.game.value;
      if g !in rest {
        WithGameAbsent(ds[1..], g);
      }
    }
  }

  /** A group of priced tickets is priced; a ticket without amounts spoils
      the group of its game. */
  lemma {:induction false} GroupsPriced(ds: seq<TicketData>)
    ensures AllPriced(ds) ==> forall g :: AllPriced(WithGame(ds, g))
    ensures AllGamed(ds) && !AllPriced(ds) ==>
              exists g :: g in Games(ds) && !AllPriced(WithGame(ds, g))
  {
    forall g, d | d in WithGame(ds, g) ensures d in ds {
      WithGameMember(ds, g, d);
    }
    if AllGamed(ds) && !AllPriced(ds) {
      var d :| d in ds && !Priced(d.ticket);
      var g := d.ticket.game.value;
      WithGameMember(ds, g, d);
      assert g in Games(ds);
    }
  }

  /** `getTicketsByBookmakerIdGroupedByGame` after the selection: group the
      list by game, then let `calculateCostMetrics` finish each group. */
  function GroupedMetrics(ds: seq<TicketData>): Result<map<string, CostMetrics>, Fault> {
    if !AllGamed(ds) then
      Err(NullPointer)
    else
      var groups := GroupByGame(ds);
      if exists g :: g in groups && CalculateCostMetrics(groups[g]).Err? then
        Err(NullPointer)
      else
        Ok(map g | g in groups :: CalculateCostMetrics(groups[g]).value)
  }

  /** The grouped result fails exactly when a ticket has no game or lacks an
      amount; otherwise its keys are the games and each value is the metrics
      of that game's tickets. */
  lemma {:induction false} GroupedMetricsCorrect(ds: seq<TicketData>)
    ensures GroupedMetrics(ds).Err? <==> !AllGamed(ds) || !AllPriced(ds)
    ensures GroupedMetrics(ds).Ok? ==> GroupedMetrics(ds).value.Keys == Games(ds)
    ensures GroupedMetrics(ds).Ok? ==>
              forall g :: g in GroupedMetrics(ds).value ==>
                CalculateCostMetrics(WithGame(ds, g)) == Ok(GroupedMetrics(ds).value[g])
  {
    if AllGamed(ds) {
      GroupByGameCorrect(ds);
      GroupsPriced(ds);
      var groups := GroupByGame(ds);
      if !AllPriced(ds) {
        var g :| g in Games(ds) && !AllPriced(WithGame(ds, g));
        assert CalculateCostMetrics(groups[g]).Err?;
      }
    }
  }

  lemma SameElements(xs: seq<TicketData>, ys: seq<TicketData>)
    requires multiset(xs) == multiset(ys)
    ensures forall d :: d in xs <==> d in ys
  {
    forall d ensures d in xs <==> d in ys {
      assert d in xs <==> d in multiset(xs);
      assert d in ys <==> d in multiset(ys);
    }
  }

  lemma WithGamePermutation(xs: seq<TicketData>, ys: seq<TicketData>, g: string)
    requires multiset(xs) == multiset(ys)
    ensures multiset(WithGame(xs, g)) == multiset(WithGame(ys, g))
  {
    var rx, ry := WithGame(xs, g), WithGame(ys, g);
    SameElements(xs, ys);
    forall d ensures multiset(rx)[d] == multiset(ry)[d] {
      WithGameMember(xs, g, d);
      WithGameMember(ys, g, d);
      if d !in xs {
        assert d !in multiset(rx) && d !in multiset(ry);
      }
    }
  }

  lemma GamesPermutation(xs: seq<TicketData>, ys: seq<TicketData>)
    requires multiset(xs) == multiset(ys)
    ensures Games(xs) == Games(ys)
    ensures AllGamed(xs) == AllGamed(ys) && AllPriced(xs) == AllPriced(ys)
  {
    SameElements(xs, ys);
  }

  lemma GroupPermutation(xs: seq<TicketData>, ys: seq<TicketData>, g: string)
    requires multiset(xs) == multiset(ys)
    requires GroupedMetrics(xs).Ok? && GroupedMetrics(ys).Ok?
    requires g in GroupedMetrics(xs).value
    ensures g in GroupedMetrics(ys).value
    ensures GroupedMetrics(xs).value[g] == GroupedMetrics(ys).value[g]
  {
    GamesPermutation(xs, ys);
    GroupedMetricsCorrect(xs);
    GroupedMetricsCorrect(ys);
    WithGamePermutation(xs, ys, g);
    CostMetricsPermutation(WithGame(xs, g), WithGame(ys, g));
  }

  lemma MetricsMapsEqual(a: map<string, CostMetrics>, b: map<string, CostMetrics>)
    requires a.Keys == b.Keys
    requires forall g :: g in a ==> a[g] == b[g]
    ensures a == b
  {
  }

  /** The grouped metrics depend only on which tickets there are. */
  lemma {:induction false} GroupedMetricsPermutation(xs: seq<TicketData>, ys: seq<TicketData>)
    requires multiset(xs) == multiset(ys)
    ensures GroupedMetrics(xs) == GroupedMetrics(ys)
  {
    GamesPermutation(xs, ys);
    GroupedMetricsCorrect(xs);
    GroupedMetricsCorrect(ys);
    if GroupedMetrics(xs).Ok? {
      var mx, my := GroupedMetrics(xs).value, GroupedMetrics(ys).value;
      forall g | g in mx ensures mx[g] == my[g] {
        GroupPermutation(xs, ys, g);
      }
      MetricsMapsEqual(mx, my);
    }
  }

  // How the groups add up

  /** The tickets whose game is one of `gs`, in list order. */
  function InGames(ds: seq<TicketData>, gs: set<string>): (r: seq<TicketData>)
    ensures forall d | d in r :: d in ds
    ensures forall d | d in ds ::
              multiset(r)[d] == if d.ticket.game.Some? && d.ticket.game.value in gs then multiset(ds)[d] else 0
    ensures gs == {} ==> r == []
    decreases |ds|
  {
    if ds == [] then []
    else
      assert ds == [ds[0]] + ds[1..];
      var keep := ds[0].ticket.game.Some? && ds[0].ticket.game.value in gs;
      (if keep then [ds[0]] else []) + InGames(ds[1..], gs)
  }

  /** The number of tickets a map of metrics accounts for. */
  ghost function TotalCount(m: map<string, CostMetrics>): int
    decreases |m|
  {
    if m == map[] then 0
    else
      var g :| g in m;
      assert |m - {g}| < |m| by {
        assert (m - {g}).Keys == m.Keys - {g};
      }
      m[g].numberOfTickets + TotalCount(m - {g})
  }

  /** `TotalCount` does not depend on the order in which it visits the keys. */
  lemma {:induction false} TotalCountRemove(m: map<string, CostMetrics>, x: string)
    requires x in m
    ensures TotalCount(m) == m[x].numberOfTickets + TotalCount(m - {x})
    decreases |m|
  {
    var g :| g in m && TotalCount(m) == m[g].numberOfTickets + TotalCount(m - {g});
    if g != x {
      assert (m - {g}).Keys == m.Keys - {g};
      assert (m - {x}).Keys == m.Keys - {x};
      TotalCountRemove(m - {g}, x);
      TotalCountRemove(m - {x}, g);
      assert m - {g} - {x} == m - {x} - {g};
    }
  }

  lemma InGamesSplit(ds: seq<TicketData>, gs: set<string>, x: string)
    requires x in gs
    ensures |InGames(ds, gs)| == |WithGame(ds, x)| + |InGames(ds, gs - {x})|
  {
    var a, b, c := InGames(ds, gs), WithGame(ds, x), InGames(ds, gs - {x});
    forall d ensures multiset(a)[d] == multiset(b)[d] + multiset(c)[d] {
      if d in ds {
        if d.ticket.game == Some(x) {
          assert multiset(c)[d] == 0;
        } else {
          assert multiset(b)[d] == 0;
        }
      } else {
        assert d !in a && d !in b && d !in c;
      }
    }
    MultisetSplit(multiset(a), multiset(b), multiset(c));
  }

  lemma MultisetSplit(a: multiset<TicketData>, b: multiset<TicketData>, c: multiset<TicketData>)
    requires forall d :: a[d] == b[d] + c[d]
    ensures |a| == |b| + |c|
  {
    assert a == b + c;
  }

  lemma InGamesAll(ds: seq<TicketData>)
    requires AllGamed(ds)
    ensures |InGames(ds, Games(ds))| == |ds|
  {
    var a := InGames(ds, Games(ds));
    forall d ensures multiset(a)[d] == multiset(ds)[d] {
      if d in ds {
        assert d.ticket.game.value in Games(ds);
      } else {
        assert d !in a;
      }
    }
    assert multiset(a) == multiset(ds);
    assert |multiset(a)| == |multiset(ds)|;
  }

  lemma {:induction false} CountsOver(ds: seq<TicketData>, m: map<string, CostMetrics>, gs: set<string>)
    requires gs <= m.Keys
    requires forall g :: g in m ==> m[g].numberOfTickets == |WithGame(ds, g)|
    ensures TotalCount(map g | g in gs :: m[g]) == |InGames(ds, gs)|
    decreases gs
  {
    var sub := map g | g in gs :: m[g];
    if gs == {} {
      assert sub == map[];
    } else {
      var x :| x in gs;
      TotalCountRemove(sub, x);
      assert sub - {x} == map g | g in gs - {x} :: m[g];
      CountsOver(ds, m, gs - {x});
      InGamesSplit(ds, gs, x);
    }
  }

  lemma CountsOverAll(ds: seq<TicketData>, m: map<string, CostMetrics>)
    requires forall g :: g in m ==> m[g].numberOfTickets == |WithGame(ds, g)|
    ensures TotalCount(m) == |InGames(ds, m.Keys)|
  {
    CountsOver(ds, m, m.Keys);
    assert (map g | g in m.Keys :: m[g]) == m;
  }

  lemma GroupSizes(ds: seq<TicketData>)
    requires GroupedMetrics(ds).Ok?
    ensures AllGamed(ds)
    ensures GroupedMetrics(ds).value.Keys == Games(ds)
    ensures forall g :: g in GroupedMetrics(ds).value ==>
              GroupedMetrics(ds).value[g].numberOfTickets == |WithGame(ds, g)|
  {
    GroupedMetricsCorrect(ds);
  }

  /** The groups partition the list: their ticket counts add up to its length. */
  lemma {:induction false} GroupCountsSum(ds: seq<TicketData>)
    requires GroupedMetrics(ds).Ok?
    ensures TotalCount(GroupedMetrics(ds).value) == |ds|
  {
    var m := GroupedMetrics(ds).value;
    GroupSizes(ds);
    CountsOverAll(ds, m);
    InGamesAll(ds);
  }
}
