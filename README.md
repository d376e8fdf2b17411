# Ticket reporting service — a Dafny model

The service consumes a stream of betting-ticket events. It keeps the latest
state of each ticket in memory, keyed by ticket id, and answers cost-metric
queries over the stored tickets. Per bookmaker it reports the number of
tickets, the turnover (sum of stakes), the profit or loss (sum of
`totalReturn - stake`) and the margin (profit or loss as a percentage of
turnover). It can also report these metrics per game. Every amount is
rounded half-up to two decimal places.

This project models `TicketConsumer` (the store, the ingestion step, the queries
and the aggregation) and the `Ticket` entity. It proves what they promise.

- `wrappers.dfy`: `Option`, `Result` and `Outcome`.
- `rounding.dfy` (module `Rounding`): `roundValue` as `Round2` on exact reals.
  - `RoundedFrom` is an independent definition of "half-up to two places".
  - `Round2` is proved to be its one solution.
  - Also proved: identity on two-decimal amounts, idempotence, oddness,
    ties away from zero, monotonicity.
- `ticket.dfy` (module `TicketModel`):
  - `Ticket` is a class. Its seven decoded, nullable fields are `const`
    `Option`s, and `processed` is its one mutable field.
  - `TicketData`, `createTicketData`, and the `CostMetrics` record.
- `metrics.dfy` (module `Metrics`):
  - `calculateCostMetrics`, with its margin branch.
  - The grouping by game: a one-pass `GroupByGame` proved equal to a reference
    filter `WithGame`.
  - `GroupedMetrics`.
  - Lemmas: the results depend only on the multiset of tickets, the groups
    partition the list, and the margin rule.
- `consumer.dfy` (module `Consumer`):
  - The class `TicketConsumer` holds `ticketStore: map<string, Ticket>`.
  - `Consume` updates the store and the ticket in place.
  - `GetTickets` and `GetTicketsByBookmaker` walk the store's values in an
    unspecified order. Their results are specified as a multiset: `EntriesOf`,
    one `createTicketData` entry per stored ticket.
  - The two metric queries on top of the selection.
- `scenarios.dfy` (module `Scenarios`): the worked examples of the service's
  tests, proved.
  - The exact figures for bookmaker 1234.
  - The store after a replayed event.
  - An event without a total return.
  - Rejected and malformed messages.

Modelling choices:
- Validation and decoding are an oracle. `consume` receives their verdict as
  an `Intake`: `Invalid` (schema mismatch or missing schema), `DecodeError(msg)` (the
  cause's message, possibly null),
  or `Decoded(ticket-or-null)`.
- A Java `NullPointerException` is modelled as an error result:
  - `ConcurrentHashMap.put` with a null ticket id throws inside `consume`.
    It is caught and rethrown as a `TicketProcessingException` with a null
    message. The ticket has already been marked processed by then.
  - Unboxing a null bookmaker in the bookmaker filter throws.
  - Unboxing a null stake or total return in the metrics throws.
  - `groupingBy` throws on a null game.

  In the first case `Consume` returns `Fail(TicketProcessingException(None))`.
  In the last three the queries return `Err(NullPointer)`. The model never
  substitutes zero.
- Queries: the Java streams traverse the map's values in hash order. The
  model keeps this as a loop that picks any remaining key. A function would
  have to fix one order.
- The margin for the single "Call of Duty" ticket is 90.0:
  `round2(111.11 / 123.45 * 100) = round2(90.0040…)`, as the integration test
  expects (TicketResourceIT.java:79). The 90.04 at TicketResourceTest.java:85
  is a stubbed value returned by a mock, not a computed one.
- A ticket without a stake or a total return makes the metric sums throw
  (TicketConsumer.java:102-104). The model returns an error there and does not
  count the missing amount as zero.

## Model

| member | source | states |
|---|---|---|
| Rounding.Round2 | src/main/java/com/ticket/reporting/consumer/TicketConsumer.java:137-141 | the result has at most two decimals, is within 0.005 of the input, and lies in the half-up interval around the input (the closed end points towards zero, so a tie goes away from zero) |
| Rounding.Round2Unique | src/main/java/com/ticket/reporting/consumer/TicketConsumer.java:137-141 | any two-decimal value meeting the half-up rule for `x` is `Round2(x)`: the rounding is the unique such value |
| Rounding.Round2OfCents | src/main/java/com/ticket/reporting/consumer/TicketConsumer.java:137-141 | an amount with at most two decimals is left unchanged |
| Rounding.Round2Idempotent | src/main/java/com/ticket/reporting/consumer/TicketConsumer.java:137-141 | rounding twice equals rounding once |
| Rounding.Round2Odd | src/main/java/com/ticket/reporting/consumer/TicketConsumer.java:137-141 | `Round2(-x) == -Round2(x)` |
| Rounding.Round2TieAwayFromZero | src/main/java/com/ticket/reporting/consumer/TicketConsumer.java:139 | `HALF_UP`: c + 0.005 rounds to c + 0.01, and its negation to -(c + 0.01), for every non-negative two-decimal c |
| Rounding.Round2Monotone | src/main/java/com/ticket/reporting/consumer/TicketConsumer.java:137-141 | x <= y implies Round2(x) <= Round2(y) |
| TicketModel.Ticket.constructor | src/main/java/com/ticket/reporting/model/Ticket.java:10-20 | a decoded ticket holds the decoded fields and starts with `processed == false` |
| TicketModel.Ticket.SetProcessed | src/main/java/com/ticket/reporting/model/Ticket.java:54-56 | sets `processed` and nothing else (every other field is immutable) |
| TicketModel.CreateTicketData | src/main/java/com/ticket/reporting/consumer/TicketConsumer.java:115-117 | pairs a ticket with its id; `Consumer.EntriesOfMember` states that a keyed store's entries are exactly these pairs |
| Metrics.Sum | src/main/java/com/ticket/reporting/consumer/TicketConsumer.java:102-104 | the stream sum of one amount; `Metrics.SumPermutation` states that it depends only on the multiset of tickets |
| Metrics.GroupByGame | src/main/java/com/ticket/reporting/consumer/TicketConsumer.java:90 | `groupingBy(game)`; `Metrics.GroupByGameCorrect` states its keys are exactly the games and each group is that game's tickets |
| Metrics.GroupedMetrics | src/main/java/com/ticket/reporting/consumer/TicketConsumer.java:88-92 | the grouped metrics; `Metrics.GroupedMetricsCorrect` states when it fails, its keys and each group's value |
| Consumer.EntriesOf | src/main/java/com/ticket/reporting/consumer/TicketConsumer.java:65-66 | the stored values mapped through `createTicketData`, as a multiset; `Consumer.EntriesOfMember` and `Consumer.EntriesOfSize` state its contents and size |
| Consumer.TicketConsumer.HasNullBookmaker | src/main/java/com/ticket/reporting/consumer/TicketConsumer.java:77 | some stored ticket has a null bookmaker, so unboxing it in the filter throws; `Consumer.TicketConsumer.GetTicketsByBookmaker` states it fails exactly then |
| Metrics.SumPermutation | src/main/java/com/ticket/reporting/consumer/TicketConsumer.java:102-104 | a stream sum over tickets depends only on the multiset of tickets, not their order |
| Metrics.CalculateCostMetrics | src/main/java/com/ticket/reporting/consumer/TicketConsumer.java:100-107 | fails exactly when some ticket lacks a stake or a total return; otherwise the count is the list length, turnover and profit/loss are the half-up roundings of the exact sums, and the margin is the rounded percentage when turnover > 0 and profit/loss != 0, else 0 |
| Metrics.CostMetricsPermutation | src/main/java/com/ticket/reporting/consumer/TicketConsumer.java:100-107 | any reordering of the tickets gives the same metrics |
| Metrics.ZeroTurnoverZeroMargin | src/main/java/com/ticket/reporting/consumer/TicketConsumer.java:105 | all-zero stakes give turnover 0 and margin 0 without dividing; the empty list gives (0, 0, 0, 0) |
| Metrics.MarginSign | src/main/java/com/ticket/reporting/consumer/TicketConsumer.java:105 | with positive turnover, a profit never gets a negative margin and a loss never a positive one |
| Metrics.WithGame | src/main/java/com/ticket/reporting/consumer/TicketConsumer.java:90 | one game's group holds exactly that game's tickets, each as often as in the list |
| Metrics.WithGameMember | src/main/java/com/ticket/reporting/consumer/TicketConsumer.java:90 | a ticket is in the group of g iff it is in the list and its game is g |
| Metrics.GroupByGameCorrect | src/main/java/com/ticket/reporting/consumer/TicketConsumer.java:90 | the one-pass grouping has exactly the games as keys, and under each the reference group of that game |
| Metrics.GroupsPriced | src/main/java/com/ticket/reporting/consumer/TicketConsumer.java:90-91 | groups of priced tickets are priced; an unpriced ticket spoils the group of its game |
| Metrics.GroupedMetricsCorrect | src/main/java/com/ticket/reporting/consumer/TicketConsumer.java:88-92 | the grouped result fails iff a ticket has no game or lacks an amount; otherwise its keys are exactly the games, and each value is the metrics of that game's tickets |
| Metrics.GroupedMetricsPermutation | src/main/java/com/ticket/reporting/consumer/TicketConsumer.java:88-92 | any reordering of the tickets gives the same grouped metrics |
| Metrics.GroupCountsSum | src/main/java/com/ticket/reporting/consumer/TicketConsumer.java:88-92 | the ticket counts of the groups add up to the length of the selected list |
| Consumer.EntriesOfMember | src/main/java/com/ticket/reporting/consumer/TicketConsumer.java:115-117 | in a store keyed by ticket id, the entries are exactly the stored tickets, each paired with its own id, once |
| Consumer.EntriesOfSize | src/main/java/com/ticket/reporting/consumer/TicketConsumer.java:64-67 | there are as many entries as stored tickets |
| Consumer.EntriesOfInsert | src/main/java/com/ticket/reporting/consumer/TicketConsumer.java:49 | storing a ticket under a new id adds exactly its entry |
| Consumer.BookmakerEntries | src/main/java/com/ticket/reporting/consumer/TicketConsumer.java:75-80 | the filter at line 77, taken as the sub-map `OfBookmaker`: its entries are a sub-multiset of all entries, all carry bookmaker b, and every entry with bookmaker b is among them |
| Consumer.TicketConsumer.constructor | src/main/java/com/ticket/reporting/consumer/TicketConsumer.java:32 | the store starts empty (and keyed, all processed) |
| Consumer.TicketConsumer.Consume | src/main/java/com/ticket/reporting/consumer/TicketConsumer.java:41-57 | an invalid message or a null decode changes nothing and raises nothing; a decode error raises a `TicketProcessingException` carrying the cause's message (null if the cause has none) and changes nothing; a decoded ticket is marked processed and then stored under its id, replacing any earlier ticket; other entries are unchanged, and the size grows by one only for a new id; a null id raises with a null message and leaves the store unchanged; the store stays keyed by id with every ticket processed |
| Consumer.TicketConsumer.GetTickets | src/main/java/com/ticket/reporting/consumer/TicketConsumer.java:64-67 | the result holds exactly one entry per stored ticket, so its length is the store size |
| Consumer.TicketConsumer.GetTicketsByBookmaker | src/main/java/com/ticket/reporting/consumer/TicketConsumer.java:75-80 | fails iff some stored ticket has no bookmaker; otherwise it returns exactly the entries of bookmaker b, a sub-multiset of all entries, in which no other bookmaker appears |
| Consumer.TicketConsumer.MetricsForBookmaker | src/main/java/com/ticket/reporting/resource/TicketResource.java:50-53 | the bookmaker endpoint's figures are `calculateCostMetrics` of the selection, whatever order the selection comes in |
| Consumer.TicketConsumer.GetTicketsByBookmakerIdGroupedByGame | src/main/java/com/ticket/reporting/consumer/TicketConsumer.java:88-92 | the grouped result is the grouped metrics of the selection, whatever its order; fails on a null bookmaker |
| Scenarios.BookmakerFigures | src/test/java/com/ticket/reporting/TicketResourceIT.java:56-84 | for bookmaker 1234's three tickets, in any order: overall (3, 592.57, 333.33, 56.25); "Call of Duty" (1, 123.45, 111.11, 90.0); "NFS" (2, 469.12, 222.22, 47.37) |
| Scenarios.ReportingScenario | src/test/java/com/ticket/reporting/TicketResourceIT.java:27-84 | after the four events: four tickets in all, and the two bookmaker endpoints answer the figures above |
| Scenarios.LatestEventScenario | src/test/java/com/ticket/reporting/consumer/TicketConsumerTest.java:124-141 | a second event for the same id replaces the first: the store size stays 1, and the later status MONETISED is read back |
| Scenarios.UnpricedEventScenario | src/test/java/com/ticket/reporting/consumer/TicketConsumerTest.java:57-70 | an event without a total return is still stored and is its bookmaker's one ticket, with bookmaker 2345 and game "GTA" |
| Scenarios.RejectedMessagesScenario | src/test/java/com/ticket/reporting/consumer/TicketConsumerTest.java:37-55 | an invalid message is dropped without an error; a malformed one raises with the message "Invalid numeric value"; neither is stored: the store holds no ticket afterwards and bookmaker 12345 has none |

## Left out

- JSON schema validation (`incomingMessageValid`, `ticket.v1.json`) and Jackson
  decoding are foreign code. Their verdict is the `Intake` input of `Consume`.
- `ConcurrentHashMap` concurrency: the store is modelled sequentially, so
  racing upserts for one id are not modelled.
- IEEE double arithmetic, and the `Double.toString` to `BigDecimal` conversion
  in `roundValue`. Amounts are exact reals, and the stream sums are exact. The
  test figures come out exactly this way.
- Traversal order: the store's values are visited in an unspecified order.
  The grouped map's key order is not modelled (a Dafny `map` has none).
  Results are stated as multisets. The metrics are proved independent of order.
  Two tests check an order (TicketConsumerTest.java:103, :119); the code does
  not promise one.
- Ticket getters: they are plain field reads, and the `const` fields are read
  directly. `isProcessed` is the field `processed`.
- The bookmaker is an unbounded `int`. It is only compared, never computed
  with, so 32-bit width does not matter.
- Logging, the Kafka `@Incoming` wiring and Quarkus startup.
- The REST layer beyond the one composition `MetricsForBookmaker`
  (TicketResource.java:50-53). The grouped endpoint delegates directly.
- Test counts that depend on state shared between tests, such as size 4 at
  TicketConsumerTest.java:84 and :137. The scenarios start from an empty store.
- The stubbed figures of `TicketResourceTest` (such as margin 90.04), which
  are not computed.
- `TicketStatus.java`, `TicketData.java` and `TicketProcessingException.java`
  are not modelled from their own source. Their shapes are taken from how
  `TicketConsumer.java` and the tests use them: `TicketModel.TicketStatus` is an enum
  of PLACED, MONETISED and CANCELLED, `TicketModel.TicketData` a record of
  `ticketId` and `ticket`, and `Consumer.TicketProcessingException` an
  exception carrying a possibly null message.
