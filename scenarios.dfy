/** The worked examples of the service's own tests, stated as properties of
    the model: the figures the bookmaker endpoints answer for the three
    tickets of bookmaker 1234, and the store after a replayed event. */
module Scenarios {
  import opened Wrappers
  import opened Rounding
  import opened TicketModel
  import opened Metrics
  import opened Consumer

  /** The game and the two amounts of a ticket event. */
  predicate Amounts(t: Ticket, game: string, stake: real, totalReturn: real) {
    t.game == Some(game) && t.stake == Some(stake) && t.totalReturn == Some(totalReturn)
  }

  /** The one "Call of Duty" ticket: 111.11 / 123.45 = 0.900040..., so the
      margin rounds to 90.00. */
  lemma CallOfDutyFigures(t1: Ticket)
    requires Amounts(t1, "Call of Duty", 123.45, 234.56)
    ensures CalculateCostMetrics([CreateTicketData(t1)]) == Ok(CostMetrics(1, 123.45, 111.11, 90.0))
  {
    var xs := [CreateTicketData(t1)];
    assert xs[1..] == [];
    assert AllPriced(xs);
    assert Sum(xs, Stake) == 123.45 + Sum([], Stake);
    assert Sum(xs, Net) == 111.11 + Sum([], Net);
    Round2OfCents(123.45);
    Round2OfCents(111.11);
    Round2Unique(111.11 / 123.45 * 100.0, 90.0);
  }

  /** The two "NFS" tickets: 222.22 / 469.12 = 0.473695..., so the margin
      rounds to 47.37. */
  lemma NfsFigures(t2: Ticket, t3: Ticket)
    requires Amounts(t2, "NFS", 234.56, 345.67) && Amounts(t3, "NFS", 234.56, 345.67)
    ensures CalculateCostMetrics([CreateTicketData(t2), CreateTicketData(t3)]) ==
              Ok(CostMetrics(2, 469.12, 222.22, 47.37))
  {
    var xs := [CreateTicketData(t2), CreateTicketData(t3)];
    assert xs[1..][1..] == [];
    assert AllPriced(xs);
    assert Sum(xs[1..], Stake) == 234.56 + Sum([], Stake);
    assert Sum(xs[1..], Net) == 111.11 + Sum([], Net);
    assert Sum(xs, Stake) == 469.12;
    assert Sum(xs, Net) == 222.22;
    Round2OfCents(469.12);
    Round2OfCents(222.22);
    Round2Unique(222.22 / 469.12 * 100.0, 47.37);
  }

  /** All three: 333.33 / 592.57 = 0.562516..., so the margin rounds to 56.25. */
  lemma AllFigures(t1: Ticket, t2: Ticket, t3: Ticket)
    requires Amounts(t1, "Call of Duty", 123.45, 234.56)
    requires Amounts(t2, "NFS", 234.56, 345.67) && Amounts(t3, "NFS", 234.56, 345.67)
    ensures CalculateCostMetrics([CreateTicketData(t1), CreateTicketData(t2), CreateTicketData(t3)]) ==
              Ok(CostMetrics(3, 592.57, 333.33, 56.25))
  {
    var xs := [CreateTicketData(t1), CreateTicketData(t2), CreateTicketData(t3)];
    assert xs[1..][1..][1..] == [];
    assert AllPriced(xs);
    assert Sum(xs[1..][1..], Stake) == 234.56 + Sum([], Stake);
    assert Sum(xs[1..][1..], Net) == 111.11 + Sum([], Net);
    assert Sum(xs[1..], Stake) == 469.12;
    assert Sum(xs[1..], Net) == 222.22;
    assert Sum(xs, Stake) == 592.57;
    assert Sum(xs, Net) == 333.33;
    Round2OfCents(592.57);
    Round2OfCents(333.33);
    Round2Unique(333.33 / 592.57 * 100.0, 56.25);
  }

  /** The games of the three tickets. */
  lemma ThreeTicketGames(d1: TicketData, d2: TicketData, d3: TicketData)
    requires Amounts(d1.ticket, "Call of Duty", 123.45, 234.56)
    requires Amounts(d2.ticket, "NFS", 234.56, 345.67) && Amounts(d3.ticket, "NFS", 234.56, 345.67)
    ensures AllGamed([d1, d2, d3]) && AllPriced([d1, d2, d3])
    ensures Games([d1, d2, d3]) == {"Call of Duty", "NFS"}
  {
    var xs := [d1, d2, d3];
    assert d1 in xs && d2 in xs;
  }

  /** The "NFS" group of the three tickets. */
  lemma NfsGroup(d1: TicketData, d2: TicketData, d3: TicketData)
    requires Amounts(d1.ticket, "Call of Duty", 123.45, 234.56)
    requires Amounts(d2.ticket, "NFS", 234.56, 345.67) && Amounts(d3.ticket, "NFS", 234.56, 345.67)
    ensures WithGame([d1, d2, d3], "NFS") == [d2, d3]
  {
    assert "Call of Duty" != "NFS" by {
      assert "Call of Duty"[0] != "NFS"[0];
    }
    var xs := [d1, d2, d3];
    assert xs[1..] == [d2, d3] && [d2, d3][1..] == [d3] && [d3][1..] == [];
    assert WithGame([d3], "NFS") == [d3];
    assert WithGame([d2, d3], "NFS") == [d2, d3];
  }

  /** The "Call of Duty" group of the three tickets. */
  lemma CallOfDutyGroup(d1: TicketData, d2: TicketData, d3: TicketData)
    requires Amounts(d1.ticket, "Call of Duty", 123.45, 234.56)
    requires Amounts(d2.ticket, "NFS", 234.56, 345.67) && Amounts(d3.ticket, "NFS", 234.56, 345.67)
    ensures WithGame([d1, d2, d3], "Call of Duty") == [d1]
  {
    assert "NFS" != "Call of Duty" by {
      assert "Call of Duty"[0] != "NFS"[0];
    }
    var xs := [d1, d2, d3];
    assert xs[1..] == [d2, d3] && [d2, d3][1..] == [d3] && [d3][1..] == [];
    assert WithGame([d3], "Call of Duty") == [];
    assert WithGame([d2, d3], "Call of Duty") == [];
  }

  /** One value of the grouped metrics. */
  lemma GroupedAt(xs: seq<TicketData>, g: string, m: CostMetrics)
    requires GroupedMetrics(xs).Ok? && g in GroupedMetrics(xs).value
    requires CalculateCostMetrics(WithGame(xs, g)) == Ok(m)
    ensures GroupedMetrics(xs).value[g] == m
  {
    GroupedMetricsCorrect(xs);
  }

  /** Grouped metrics succeed, keyed by the games. */
  lemma GroupedKeys(xs: seq<TicketData>)
    requires AllGamed(xs) && AllPriced(xs)
    ensures GroupedMetrics(xs).Ok? && GroupedMetrics(xs).value.Keys == Games(xs)
  {
    GroupedMetricsCorrect(xs);
  }

  /** Grouped metrics of a list with exactly two games. */
  lemma TwoGroups(xs: seq<TicketData>, a: string, b: string, ma: CostMetrics, mb: CostMetrics)
    requires AllGamed(xs) && AllPriced(xs) && Games(xs) == {a, b}
    requires CalculateCostMetrics(WithGame(xs, a)) == Ok(ma)
    requires CalculateCostMetrics(WithGame(xs, b)) == Ok(mb)
    ensures GroupedMetrics(xs) == Ok(map[a := ma, b := mb])
  {
    GroupedKeys(xs);
    var v, w := GroupedMetrics(xs).value, map[a := ma, b := mb];
    GroupedAt(xs, a, ma);
    GroupedAt(xs, b, mb);
    MetricsMapsEqual(v, w);
  }

  /** The grouped figures, for the three tickets in one order. */
  lemma GroupedFigures(t1: Ticket, t2: Ticket, t3: Ticket)
    requires Amounts(t1, "Call of Duty", 123.45, 234.56)
    requires Amounts(t2, "NFS", 234.56, 345.67) && Amounts(t3, "NFS", 234.56, 345.67)
    ensures GroupedMetrics([CreateTicketData(t1), CreateTicketData(t2), CreateTicketData(t3)]) ==
              Ok(map["Call of Duty" := CostMetrics(1, 123.45, 111.11, 90.0),
                     "NFS" := CostMetrics(2, 469.12, 222.22, 47.37)])
  {
    var d1, d2, d3 := CreateTicketData(t1), CreateTicketData(t2), CreateTicketData(t3);
    ThreeTicketGames(d1, d2, d3);
    NfsGroup(d1, d2, d3);
    CallOfDutyGroup(d1, d2, d3);
    CallOfDutyFigures(t1);
    NfsFigures(t2, t3);
    TwoGroups([d1, d2, d3], "Call of Duty", "NFS",
              CostMetrics(1, 123.45, 111.11, 90.0), CostMetrics(2, 469.12, 222.22, 47.37));
  }

  /** Bookmaker 1234's figures, whatever order the store hands its three
      tickets out in. */
  lemma BookmakerFigures(ds: seq<TicketData>, t1: Ticket, t2: Ticket, t3: Ticket)
    requires Amounts(t1, "Call of Duty", 123.45, 234.56)
    requires Amounts(t2, "NFS", 234.56, 345.67) && Amounts(t3, "NFS", 234.56, 345.67)
    requires multiset(ds) == multiset{CreateTicketData(t1), CreateTicketData(t2), CreateTicketData(t3)}
    ensures CalculateCostMetrics(ds) == Ok(CostMetrics(3, 592.57, 333.33, 56.25))
    ensures GroupedMetrics(ds) ==
              Ok(map["Call of Duty" := CostMetrics(1, 123.45, 111.11, 90.0),
                     "NFS" := CostMetrics(2, 469.12, 222.22, 47.37)])
  {
    var xs := [CreateTicketData(t1), CreateTicketData(t2), CreateTicketData(t3)];
    assert multiset(xs) == multiset(ds);
    CostMetricsPermutation(ds, xs);
    GroupedMetricsPermutation(ds, xs);
    AllFigures(t1, t2, t3);
    GroupedFigures(t1, t2, t3);
  }

  /** The entries of a store of one ticket. */
  lemma OneEntry(k: string, t: Ticket)
    ensures EntriesOf(map[k := t]) == multiset{CreateTicketData(t)}
  {
    var empty: map<string, Ticket> := map[];
    assert EntriesOf(empty) == multiset{};
    EntriesOfInsert(empty, k, t);
  }

  /** The entries of a store of two tickets. */
  lemma TwoEntries(k1: string, k2: string, a: Ticket, b: Ticket)
    requires k1 != k2
    ensures EntriesOf(map[k1 := a, k2 := b]) == multiset{CreateTicketData(a), CreateTicketData(b)}
  {
    OneEntry(k1, a);
    EntriesOfInsert(map[k1 := a], k2, b);
  }

  /** The entries of a store of three tickets. */
  lemma ThreeEntries(k1: string, k2: string, k3: string, a: Ticket, b: Ticket, c: Ticket)
    requires k1 != k2 && k1 != k3 && k2 != k3
    ensures EntriesOf(map[k1 := a, k2 := b, k3 := c]) ==
              multiset{CreateTicketData(a), CreateTicketData(b), CreateTicketData(c)}
  {
    TwoEntries(k1, k2, a, b);
    EntriesOfInsert(map[k1 := a, k2 := b], k3, c);
  }

  /** The store after the four events: four tickets, every one with a
      bookmaker, three of them bookmaker 1234's. */
  lemma StoreOfFour(m: map<string, Ticket>, t1: Ticket, t2: Ticket, t3: Ticket, t4: Ticket)
    requires t1.ticketId == Some("34567") && t2.ticketId == Some("45678")
    requires t3.ticketId == Some("56789") && t4.ticketId == Some("89012")
    requires t1.bookmaker == Some(1234) && t2.bookmaker == Some(1234)
    requires t3.bookmaker == Some(1234) && t4.bookmaker == Some(2345)
    requires m == map["34567" := t1]["45678" := t2]["56789" := t3]["89012" := t4]
    ensures |m| == 4
    ensures forall id :: id in m ==> m[id].bookmaker.Some?
    ensures EntriesOf(OfBookmaker(m, 1234)) ==
              multiset{CreateTicketData(t1), CreateTicketData(t2), CreateTicketData(t3)}
  {
    assert "34567"[0] != "45678"[0] && "34567"[0] != "56789"[0] && "34567"[0] != "89012"[0];
    assert "45678"[0] != "56789"[0] && "45678"[0] != "89012"[0] && "56789"[0] != "89012"[0];
    assert m.Keys == {"34567", "45678", "56789", "89012"};
    assert OfBookmaker(m, 1234) == map["34567" := t1, "45678" := t2, "56789" := t3];
    ThreeEntries("34567", "45678", "56789", t1, t2, t3);
  }

  /** What the bookmaker endpoint answers when the selection holds the three
      tickets of bookmaker 1234, in whatever order. */
  lemma SelectionMetrics(sel: multiset<TicketData>, t1: Ticket, t2: Ticket, t3: Ticket,
                         metrics: Result<CostMetrics, Fault>)
    requires Amounts(t1, "Call of Duty", 123.45, 234.56)
    requires Amounts(t2, "NFS", 234.56, 345.67) && Amounts(t3, "NFS", 234.56, 345.67)
    requires sel == multiset{CreateTicketData(t1), CreateTicketData(t2), CreateTicketData(t3)}
    requires forall ds :: multiset(ds) == sel ==> metrics == CalculateCostMetrics(ds)
    ensures metrics == Ok(CostMetrics(3, 592.57, 333.33, 56.25))
  {
    var ds := [CreateTicketData(t1), CreateTicketData(t2), CreateTicketData(t3)];
    assert multiset(ds) == sel;
    BookmakerFigures(ds, t1, t2, t3);
  }

  /** What the per-game endpoint answers for the same selection. */
  lemma SelectionGroups(sel: multiset<TicketData>, t1: Ticket, t2: Ticket, t3: Ticket,
                        grouped: Result<map<string, CostMetrics>, Fault>)
    requires Amounts(t1, "Call of Duty", 123.45, 234.56)
    requires Amounts(t2, "NFS", 234.56, 345.67) && Amounts(t3, "NFS", 234.56, 345.67)
    requires sel == multiset{CreateTicketData(t1), CreateTicketData(t2), CreateTicketData(t3)}
    requires forall ds :: multiset(ds) == sel ==> grouped == GroupedMetrics(ds)
    ensures grouped == Ok(map["Call of Duty" := CostMetrics(1, 123.45, 111.11, 90.0),
                              "NFS" := CostMetrics(2, 469.12, 222.22, 47.37)])
  {
    var ds := [CreateTicketData(t1), CreateTicketData(t2), CreateTicketData(t3)];
    assert multiset(ds) == sel;
    BookmakerFigures(ds, t1, t2, t3);
  }

  /** Four events consumed in turn by an empty consumer. */
  method ConsumeFour(consumer: TicketConsumer, t1: Ticket, t2: Ticket, t3: Ticket, t4: Ticket)
    requires consumer.Valid() && consumer.ticketStore == map[]
    requires t1.ticketId.Some? && t2.ticketId.Some? && t3.ticketId.Some? && t4.ticketId.Some?
    modifies consumer, t1, t2, t3, t4
    ensures consumer.Valid()
    ensures consumer.ticketStore ==
              map[t1.ticketId.value := t1][t2.ticketId.value := t2][t3.ticketId.value := t3][t4.ticketId.value := t4]
  {
    var o1 := consumer.Consume(Decoded(Some(t1)));
    var o2 := consumer.Consume(Decoded(Some(t2)));
    var o3 := consumer.Consume(Decoded(Some(t3)));
    var o4 := consumer.Consume(Decoded(Some(t4)));
  }

  /** The reporting run: four events consumed, then the three queries the
      endpoints make. */
  method ReportingScenario() returns (count: nat, metrics: Result<CostMetrics, Fault>,
                                      grouped: Result<map<string, CostMetrics>, Fault>)
    ensures count == 4
    ensures metrics == Ok(CostMetrics(3, 592.57, 333.33, 56.25))
    ensures grouped == Ok(map["Call of Duty" := CostMetrics(1, 123.45, 111.11, 90.0),
                              "NFS" := CostMetrics(2, 469.12, 222.22, 47.37)])
  {
    var consumer := new TicketConsumer();
    var t1 := new Ticket(Some(1234), Some("EUR"), Some("Call of Duty"), Some(123.45), Some(Placed), Some("34567"), Some(234.56));
    var t2 := new Ticket(Some(1234), Some("PLN"), Some("NFS"), Some(234.56), Some(Monetised), Some("45678"), Some(345.67));
    var t3 := new Ticket(Some(1234), Some("EUR"), Some("NFS"), Some(234.56), Some(Monetised), Some("56789"), Some(345.67));
    var t4 := new Ticket(Some(2345), Some("INR"), Some("GTA"), Some(234.56), Some(Cancelled), Some("89012"), Some(345.67));
    ConsumeFour(consumer, t1, t2, t3, t4);
    StoreOfFour(consumer.ticketStore, t1, t2, t3, t4);
    assert !consumer.HasNullBookmaker();
    ghost var sel := EntriesOf(OfBookmaker(consumer.ticketStore, 1234));
    var tickets := consumer.GetTickets();
    count := |tickets|;
    metrics := consumer.MetricsForBookmaker(1234);
    SelectionMetrics(sel, t1, t2, t3, metrics);
    grouped := consumer.GetTicketsByBookmakerIdGroupedByGame(1234);
    SelectionGroups(sel, t1, t2, t3, grouped);
  }

  /** A replayed event: the second event for ticket 34567 replaces the first,
      so the store holds one ticket, with the later status. */
  method LatestEventScenario() returns (count: nat, status: Option<TicketStatus>)
    ensures count == 1
    ensures status == Some(Monetised)
  {
    var consumer := new TicketConsumer();
    var first := new Ticket(Some(1234), Some("EUR"), Some("Call of Duty"), Some(123.45), Some(Placed), Some("34567"), Some(234.56));
    var later := new Ticket(Some(1234), Some("EUR"), Some("Call of Duty"), Some(123.45), Some(Monetised), Some("34567"), Some(234.56));
    var o1 := consumer.Consume(Decoded(Some(first)));
    var o2 := consumer.Consume(Decoded(Some(later)));
    assert consumer.ticketStore == map["34567" := later];
    OneEntry("34567", later);
    var tickets := consumer.GetTickets();
    count := |tickets|;
    assert CreateTicketData(later) in multiset(tickets);
    var found :| found in tickets && found.ticketId == Some("34567");
    assert found in multiset(tickets);
    status := found.ticket.status;
  }

  /** An event without a total return is still stored, and is the one ticket
      of its bookmaker. */
  method UnpricedEventScenario() returns (selected: Result<seq<TicketData>, Fault>)
    ensures selected.Ok? && |selected.value| == 1
    ensures selected.value[0].ticketId == Some("89012")
    ensures selected.value[0].ticket.bookmaker == Some(2345)
    ensures selected.value[0].ticket.game == Some("GTA")
    ensures selected.value[0].ticket.totalReturn == None
  {
    var consumer := new TicketConsumer();
    var t := new Ticket(Some(2345), Some("INR"), Some("GTA"), Some(234.56), Some(Cancelled), Some("89012"), None);
    var o := consumer.Consume(Decoded(Some(t)));
    assert consumer.ticketStore == map["89012" := t];
    assert OfBookmaker(consumer.ticketStore, 2345) == map["89012" := t];
    OneEntry("89012", t);
    assert !consumer.HasNullBookmaker();
    selected := consumer.GetTicketsByBookmaker(2345);
    var ds := selected.value;
    assert multiset(ds) == multiset{CreateTicketData(t)};
    assert |ds| == 1;
    assert ds[0] in multiset(ds);
  }

  /** A message that fails validation is dropped without an error; one that
      fails to decode is rethrown with the decoder's message. Neither is
      stored: the store holds no ticket at all afterwards. */
  method RejectedMessagesScenario() returns (invalid: Outcome<TicketProcessingException>,
                                             malformed: Outcome<TicketProcessingException>,
                                             selected: Result<seq<TicketData>, Fault>,
                                             count: nat)
    ensures invalid == Pass
    ensures malformed == Fail(TicketProcessingException(Some("Invalid numeric value")))
    ensures selected == Ok([])
    ensures count == 0
  {
    var consumer := new TicketConsumer();
    invalid := consumer.Consume(Invalid);
    malformed := consumer.Consume(DecodeError(Some("Invalid numeric value")));
    assert consumer.ticketStore == map[];
    assert OfBookmaker(consumer.ticketStore, 12345) == map[];
    var empty: map<string, Ticket> := map[];
    assert EntriesOf(empty) == multiset{};
    assert !consumer.HasNullBookmaker();
    selected := consumer.GetTicketsByBookmaker(12345);
    assert |multiset(selected.value)| == 0;
    var tickets := consumer.GetTickets();
    count := |tickets|;
  }
}
