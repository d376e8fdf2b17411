/** `TicketConsumer`: the in-memory store of the latest state of each ticket,
    fed one message at a time, and the queries the REST layer calls on it. */
module Consumer {
  import opened Wrappers
  import opened TicketModel
  import opened Metrics

  /** What validating and then decoding one message came to. Schema
      validation and JSON decoding are outside the model; their verdict is
      the input. `Invalid` covers a missing schema resource too.
      `DecodeError` carries the message, possibly null, of whatever exception validation or
      decoding raised. `Decoded` carries the decoder's result, which may be
      null. */
  datatype Intake = Invalid | DecodeError(message: Option<string>) | Decoded(ticket: Option<Ticket>)
  {
    /** The decoded ticket object, which `consume` updates. */
    function Objects(): set<object> {
      if Decoded? && ticket.Some? then {ticket.value} else {}
    }
  }

  /** The exception `consume` raises; its message is the cause's message,
      which may be null. */
  datatype TicketProcessingException = TicketProcessingException(message: Option<string>)

  /** Every ticket is stored under its own id. */
  predicate Keyed(m: map<string, Ticket>) {
    forall id :: id in m ==> m[id].ticketId == Some(id)
  }

  /** `values().stream().map(createTicketData)` as a multiset: the order of
      a hash map's values is not specified. */
  ghost function EntriesOf(m: map<string, Ticket>): multiset<TicketData>
    decreases |m|
  {
    if m == map[] then multiset{}
    else
      var id :| id in m;
      assert |m - {id}| < |m| by {
        assert (m - {id}).Keys == m.Keys - {id};
      }
      multiset{CreateTicketData(m[id])} + EntriesOf(m - {id})
  }

  /** `EntriesOf` does not depend on the order in which it visits the keys. */
  lemma {:induction false} EntriesOfRemove(m: map<string, Ticket>, x: string)
    requires x in m
    ensures EntriesOf(m) == multiset{CreateTicketData(m[x])} + EntriesOf(m - {x})
    decreases |m|
  {
    var y :| y in m && EntriesOf(m) == multiset{CreateTicketData(m[y])} + EntriesOf(m - {y});
    if y != x {
      assert (m - {y}).Keys == m.Keys - {y} && (m - {x}).Keys == m.Keys - {x};
      EntriesOfRemove(m - {y}, x);
      EntriesOfRemove(m - {x}, y);
      EntriesOfSwap(m, x, y);
    }
  }

  lemma MultisetSwap(a: TicketData, b: TicketData, rest: multiset<TicketData>)
    ensures multiset{b} + (multiset{a} + rest) == multiset{a} + (multiset{b} + rest)
  {
  }

  lemma EntriesOfSwap(m: map<string, Ticket>, x: string, y: string)
    requires x in m && y in m && x != y
    requires EntriesOf(m - {y}) == multiset{CreateTicketData(m[x])} + EntriesOf(m - {y} - {x})
    requires EntriesOf(m - {x}) == multiset{CreateTicketData(m[y])} + EntriesOf(m - {x} - {y})
    requires EntriesOf(m) == multiset{CreateTicketData(m[y])} + EntriesOf(m - {y})
    ensures EntriesOf(m) == multiset{CreateTicketData(m[x])} + EntriesOf(m - {x})
  {
    var a, b := CreateTicketData(m[x]), CreateTicketData(m[y]);
    var rest := EntriesOf(m - {x} - {y});
    assert m - {y} - {x} == m - {x} - {y};
    calc {
      EntriesOf(m);
      multiset{b} + EntriesOf(m - {y});
      multiset{b} + (multiset{a} + rest);
      { MultisetSwap(a, b, rest); }
      multiset{a} + (multiset{b} + rest);
      multiset{a} + EntriesOf(m - {x});
    }
  }

  /** Storing a ticket under a new id adds its one entry. */
  lemma EntriesOfInsert(m: map<string, Ticket>, id: string, t: Ticket)
    requires id !in m
    ensures EntriesOf(m[id := t]) == multiset{CreateTicketData(t)} + EntriesOf(m)
  {
    EntriesOfRemove(m[id := t], id);
    assert m[id := t] - {id} == m;
  }

  /** One entry per stored ticket. */
  lemma {:induction false} EntriesOfSize(m: map<string, Ticket>)
    ensures |EntriesOf(m)| == |m|
    decreases |m|
  {
    if m != map[] {
      var x :| x in m;
      EntriesOfRemove(m, x);
      assert (m - {x}).Keys == m.Keys - {x};
      EntriesOfSize(m - {x});
    }
  }

  /** In a store whose tickets sit under their own ids, the entries are
      exactly the stored tickets, each paired with its key, once. */
  lemma {:induction false} EntriesOfMember(m: map<string, Ticket>, d: TicketData)
    requires Keyed(m)
    ensures EntriesOf(m)[d] ==
              if d.ticketId.Some? && d.ticketId.value in m && m[d.ticketId.value] == d.ticket then 1 else 0
    decreases |m|
  {
    if m != map[] {
      var x :| x in m && (d.ticketId.Some? && d.ticketId.value in m ==> x == d.ticketId.value);
      EntriesOfRemove(m, x);
      assert (m - {x}).Keys == m.Keys - {x};
      EntriesOfMember(m - {x}, d);
    }
  }

  /** The stored tickets of bookmaker `b`. */
  function OfBookmaker(m: map<string, Ticket>, b: int): map<string, Ticket> {
    map id | id in m && m[id].bookmaker == Some(b) :: m[id]
  }

  /** Selection by bookmaker keeps exactly that bookmaker's tickets. */
  lemma {:induction false} BookmakerEntries(m: map<string, Ticket>, b: int)
    requires Keyed(m)
    ensures EntriesOf(OfBookmaker(m, b)) <= EntriesOf(m)
    ensures forall d :: d in EntriesOf(OfBookmaker(m, b)) ==> d.ticket.bookmaker == Some(b)
    ensures forall d :: d in EntriesOf(m) && d.ticket.bookmaker == Some(b) ==> d in EntriesOf(OfBookmaker(m, b))
  {
    var sub := OfBookmaker(m, b);
    forall d
      ensures EntriesOf(sub)[d] == if d.ticket.bookmaker == Some(b) then EntriesOf(m)[d] else 0
    {
      EntriesOfMember(m, d);
      EntriesOfMember(sub, d);
    }
    SubMultiset(EntriesOf(sub), EntriesOf(m));
    forall d | d in EntriesOf(sub) ensures d.ticket.bookmaker == Some(b) {
      EntriesOfMember(sub, d);
    }
    forall d | d in EntriesOf(m) && d.ticket.bookmaker == Some(b) ensures d in EntriesOf(sub) {
      EntriesOfMember(m, d);
      EntriesOfMember(sub, d);
    }
  }

  lemma SubMultiset(a: multiset<TicketData>, b: multiset<TicketData>)
    requires forall d :: a[d] <= b[d]
    ensures a <= b
  {
  }

  /** One step of the selection loop. */
  lemma OfBookmakerRemove(m: map<string, Ticket>, b: int, id: string)
    requires id in m
    ensures m[id].bookmaker == Some(b) ==>
              EntriesOf(OfBookmaker(m, b)) == multiset{CreateTicketData(m[id])} + EntriesOf(OfBookmaker(m - {id}, b))
    ensures m[id].bookmaker != Some(b) ==>
              EntriesOf(OfBookmaker(m, b)) == EntriesOf(OfBookmaker(m - {id}, b))
  {
    if m[id].bookmaker == Some(b) {
      EntriesOfRemove(OfBookmaker(m, b), id);
      assert OfBookmaker(m, b) - {id} == OfBookmaker(m - {id}, b);
    } else {
      assert OfBookmaker(m, b) == OfBookmaker(m - {id}, b);
    }
  }

  /** A list holding the selection's entries holds each ticket of bookmaker
      `b` and nothing else. */
  lemma SelectionOfBookmaker(m: map<string, Ticket>, b: int, ds: seq<TicketData>)
    requires Keyed(m) && multiset(ds) == EntriesOf(OfBookmaker(m, b))
    ensures multiset(ds) <= EntriesOf(m)
    ensures forall d :: d in ds ==> d.ticket.bookmaker == Some(b)
    ensures forall d :: d in EntriesOf(m) && d.ticket.bookmaker == Some(b) ==> d in ds
  {
    BookmakerEntries(m, b);
    assert forall d :: d in ds <==> d in multiset(ds);
  }

  /** The selection loop's invariant survives moving one ticket out of
      `rest`. */
  lemma SelectStep(rest: map<string, Ticket>, b: int, id: string, selected: seq<TicketData>)
    requires id in rest
    ensures |rest - {id}| < |rest|
    ensures multiset(selected + if rest[id].bookmaker == Some(b) then [CreateTicketData(rest[id])] else [])
              + EntriesOf(OfBookmaker(rest - {id}, b))
            == multiset(selected) + EntriesOf(OfBookmaker(rest, b))
  {
    assert (rest - {id}).Keys == rest.Keys - {id};
    OfBookmakerRemove(rest, b, id);
    var x := CreateTicketData(rest[id]);
    if rest[id].bookmaker == Some(b) {
      assert multiset(selected + [x]) == multiset(selected) + multiset{x};
    } else {
      assert selected + [] == selected;
    }
  }

  /** `rest` is what is left of `m` to scan. */
  predicate Remaining(rest: map<string, Ticket>, m: map<string, Ticket>) {
    forall id :: id in rest ==> id in m && rest[id] == m[id]
  }

  /** Every ticket of `m` already scanned has a bookmaker. */
  predicate BookedOutside(m: map<string, Ticket>, rest: map<string, Ticket>) {
    forall id :: id in m && id !in rest ==> m[id].bookmaker.Some?
  }

  class TicketConsumer {
    var ticketStore: map<string, Ticket>

    /** Every ticket sits under its own id and has been marked processed. */
    ghost predicate Valid()
      reads this, ticketStore.Values
    {
      Keyed(ticketStore) && forall id :: id in ticketStore ==> ticketStore[id].processed
    }

    /** Some stored ticket has no bookmaker, so comparing it throws. */
    predicate HasNullBookmaker()
      reads this
    {
      exists id :: id in ticketStore && ticketStore[id].bookmaker.None?
    }

    constructor ()
      ensures Valid() && ticketStore == map[]
    {
      ticketStore := map[];
    }

    /** `consume`: an invalid message is dropped silently; a decoding
        failure is rethrown; a decoded ticket is marked processed and replaces
        whatever was stored under its id. `ConcurrentHashMap` rejects a null
        key with a message-less `NullPointerException`. */
    method Consume(intake: Intake) returns (outcome: Outcome<TicketProcessingException>)
      requires Valid()
      modifies this, intake.Objects()
      ensures Valid()
      ensures intake.Invalid? ==> outcome == Pass && ticketStore == old(ticketStore)
      ensures intake.DecodeError? ==>
                outcome == Fail(TicketProcessingException(intake.message)) && ticketStore == old(ticketStore)
      ensures intake.Decoded? && intake.ticket.None? ==> outcome == Pass && ticketStore == old(ticketStore)
      ensures intake.Decoded? && intake.ticket.Some? ==>
                var t := intake.ticket.value;
                && t.processed
                && (t.ticketId.None? ==>
                      outcome == Fail(TicketProcessingException(None)) && ticketStore == old(ticketStore))
                && (t.ticketId.Some? ==>
                      var id := t.ticketId.value;
                      && outcome == Pass
                      && ticketStore == old(ticketStore)[id := t]
                      && |ticketStore| == if id in old(ticketStore) then old(|ticketStore|) else old(|ticketStore|) + 1)
    {
      match intake
      case Invalid =>
        outcome := Pass;
      case DecodeError(message) =>
        outcome := Fail(TicketProcessingException(message));
      case Decoded(None) =>
        outcome := Pass;
      case Decoded(Some(t)) =>
        t.SetProcessed(true);
        match t.ticketId
        case None =>
          outcome := Fail(TicketProcessingException(None));
        case Some(id) =>
          ghost var before := ticketStore;
          ticketStore := ticketStore[id := t];
          assert ticketStore.Keys == before.Keys + {id};
          outcome := Pass;
    }

    /** `getTickets`: one entry per stored ticket, in the map's order. */
    method GetTickets() returns (r: seq<TicketData>)
      ensures multiset(r) == EntriesOf(ticketStore)
      ensures |r| == |ticketStore|
    {
      r := [];
      var rest := ticketStore;
      while rest != map[]
        invariant multiset(r) + EntriesOf(rest) == EntriesOf(ticketStore)
        decreases |rest|
      {
        var id :| id in rest;
        EntriesOfRemove(rest, id);
        r := r + [CreateTicketData(rest[id])];
        assert (rest - {id}).Keys == rest.Keys - {id};
        rest := rest - {id};
      }
      EntriesOfSize(ticketStore);
    }

    /** `getTicketsByBookmaker`: the stored tickets of one bookmaker, in the
        map's order. Unboxing an absent bookmaker for the comparison throws. */
    method GetTicketsByBookmaker(b: int) returns (r: Result<seq<TicketData>, Fault>)
      ensures r.Err? <==> HasNullBookmaker()
      ensures r.Ok? ==> multiset(r.value) == EntriesOf(OfBookmaker(ticketStore, b))
      ensures Valid() && r.Ok? ==>
                && multiset(r.value) <= EntriesOf(ticketStore)
                && (forall d :: d in r.value ==> d.ticket.bookmaker == Some(b))
                && (forall d :: d in EntriesOf(ticketStore) && d.ticket.bookmaker == Some(b) ==> d in r.value)
    {
      var selected := [];
      var rest := ticketStore;
      while rest != map[]
        invariant Remaining(rest, ticketStore)
        invariant BookedOutside(ticketStore, rest)
        invariant multiset(selected) + EntriesOf(OfBookmaker(rest, b)) == EntriesOf(OfBookmaker(ticketStore, b))
        decreases |rest|
      {
        var id :| id in rest;
        var t := rest[id];
        if t.bookmaker.None? {
          assert id in ticketStore && ticketStore[id].bookmaker.None?;
          assert HasNullBookmaker();
          r := Err(NullPointer);
          return;
        }
        SelectStep(rest, b, id, selected);
        selected := selected + if t.bookmaker == Some(b) then [CreateTicketData(t)] else [];
        rest := rest - {id};
      }
      assert OfBookmaker(rest, b) == map[];
      assert EntriesOf(OfBookmaker(rest, b)) == multiset{};
      assert !HasNullBookmaker();
      r := Ok(selected);
      if Valid() {
        SelectionOfBookmaker(ticketStore, b, selected);
      }
    }

    /** The bookmaker endpoint: `calculateCostMetrics(getTicketsByBookmaker(b))`.
        The answer is the same for every order of the selected tickets. */
    method MetricsForBookmaker(b: int) returns (r: Result<CostMetrics, Fault>)
      ensures HasNullBookmaker() ==> r == Err(NullPointer)
      ensures !HasNullBookmaker() ==>
                forall ds :: multiset(ds) == EntriesOf(OfBookmaker(ticketStore, b)) ==> r == CalculateCostMetrics(ds)
    {
      var selected := GetTicketsByBookmaker(b);
      match selected
      case Err(_) =>
        r := Err(NullPointer);
      case Ok(ds) =>
        r := CalculateCostMetrics(ds);
        forall ds' | multiset(ds') == EntriesOf(OfBookmaker(ticketStore, b))
          ensures r == CalculateCostMetrics(ds')
        {
          CostMetricsPermutation(ds, ds');
        }
    }

    /** `getTicketsByBookmakerIdGroupedByGame`. The answer is the same for
        every order of the selected tickets. */
    method GetTicketsByBookmakerIdGroupedByGame(b: int) returns (r: Result<map<string, CostMetrics>, Fault>)
      ensures HasNullBookmaker() ==> r == Err(NullPointer)
      ensures !HasNullBookmaker() ==>
                forall ds :: multiset(ds) == EntriesOf(OfBookmaker(ticketStore, b)) ==> r == GroupedMetrics(ds)
    {
      var selected := GetTicketsByBookmaker(b);
      match selected
      case Err(_) =>
        r := Err(NullPointer);
      case Ok(ds) =>
        r := GroupedMetrics(ds);
        forall ds' | multiset(ds') == EntriesOf(OfBookmaker(ticketStore, b))
          ensures r == GroupedMetrics(ds')
        {
          GroupedMetricsPermutation(ds, ds');
        }
    }
  }
}
