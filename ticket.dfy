/** The value types of the reporting service: `Ticket` (a decoded ticket event),
    `TicketData` (a ticket paired with its id for the query results) and
    `CostMetrics` (the aggregate answer). */
module TicketModel {
  import opened Wrappers

  /** The statuses a ticket event carries (the values of `TicketStatus`). */
  datatype TicketStatus = Placed | Monetised | Cancelled

  /** One betting ticket as decoded from an event. Every decoded field is a
      boxed Java value that may be null, hence an `Option`; none of them has a
      setter, so they are `const`. The `processed` flag is not part of the
      event and is the one field updated in place. */
  class Ticket {
    const bookmaker: Option<int>
    const currency: Option<string>
    const game: Option<string>
    const stake: Option<real>
    const status: Option<TicketStatus>
    const ticketId: Option<string>
    const totalReturn: Option<real>
    var processed: bool

    /** The object the decoder builds: the decoded fields as given, and
        `processed` at its default, false. */
    constructor (bookmaker: Option<int>, currency: Option<string>, game: Option<string>,
                 stake: Option<real>, status: Option<TicketStatus>, ticketId: Option<string>,
                 totalReturn: Option<real>)
      ensures this.bookmaker == bookmaker && this.currency == currency && this.game == game
      ensures this.stake == stake && this.status == status && this.ticketId == ticketId
      ensures this.totalReturn == totalReturn
      ensures !processed
    {
      this.bookmaker := bookmaker;
      this.currency := currency;
      this.game := game;
      this.stake := stake;
      this.status := status;
      this.ticketId := ticketId;
      this.totalReturn := totalReturn;
      processed := false;
    }

    /** Sets the flag; every other field is `const` and so unchanged. */
    method SetProcessed(processed: bool)
      modifies this
      ensures this.processed == processed
    {
      this.processed := processed;
    }
  }

  /** A ticket paired with the id it reports for itself. */
  datatype TicketData = TicketData(ticketId: Option<string>, ticket: Ticket)

  function CreateTicketData(t: Ticket): TicketData {
    TicketData(t.ticketId, t)
  }

  /** The aggregate over a list of tickets. */
  datatype CostMetrics = CostMetrics(numberOfTickets: int, turnover: real, profitLoss: real, margin: real)

  /** The `NullPointerException` the aggregation code raises on an absent
      (null) boxed field. */
  datatype Fault = NullPointer
}
