/**
 * features/support/supportSlice.ts: the support ticket list, the ticket opened in detail
 * (with its responses), paging counters and loading flags.
 */
module SupportSlice {
  import opened Wrappers
  import opened Thunks
  import opened Entities
  import Seqs

  datatype SupportState = SupportState(
    tickets: seq<SupportTicket>, selectedTicket: Option<TicketDetail>,
    total: int, page: int, limit: int, filters: map<string, string>,
    loading: bool, error: Option<string>, actionLoading: bool)

  const InitialState := SupportState([], None, 0, 1, 10, map[], false, None, false)

  /**
   * `{ ...selected, ...payload }`: a spread copies only the keys the payload has. Every required
   * ticket field comes from the payload; the optional `assignedTo` comes from the payload when
   * it is there and stays the selected ticket's when it is absent; the responses, which a plain
   * ticket does not carry, stay those of the selected ticket.
   */
  function MergeTicket(selected: TicketDetail, payload: SupportTicket): (r: TicketDetail)
    ensures r.ticket.(assignedTo := payload.assignedTo) == payload
    ensures r.ticket.assignedTo == if payload.assignedTo.Some? then payload.assignedTo else selected.ticket.assignedTo
    ensures r.responses == selected.responses
  {
    var assignee := if payload.assignedTo.Some? then payload.assignedTo else selected.ticket.assignedTo;
    selected.(ticket := payload.(assignedTo := assignee))
  }

  class SupportStore {
    var tickets: seq<SupportTicket>
    var selectedTicket: Option<TicketDetail>
    var total: int
    var page: int
    var limit: int
    var filters: map<string, string>
    var loading: bool
    var error: Option<string>
    var actionLoading: bool

    function State(): SupportState
      reads this
    {
      SupportState(tickets, selectedTicket, total, page, limit, filters, loading, error, actionLoading)
    }

    constructor ()
      ensures State() == InitialState
    {
      tickets, selectedTicket, total, page, limit := [], None, 0, 1, 10;
      filters, loading, error, actionLoading := map[], false, None, false;
    }

    method SetFilters(f: map<string, string>)
      modifies this
      ensures State() == old(State()).(filters := f)
    {
      filters := f;
    }

    method ClearFilters()
      modifies this
      ensures State() == old(State()).(filters := map[])
    {
      filters := map[];
    }

    method SetSelectedTicket(t: Option<TicketDetail>)
      modifies this
      ensures State() == old(State()).(selectedTicket := t)
    {
      selectedTicket := t;
    }

    method ClearError()
      modifies this
      ensures State() == old(State()).(error := None)
    {
      error := None;
    }

    method FetchTickets(o: Outcome<TicketsResponse>)
      modifies this
      ensures match o
        case Pending => State() == old(State()).(loading := true, error := None)
        case Fulfilled(r) =>
          State() == old(State()).(loading := false, tickets := r.tickets, total := r.total, page := r.page, limit := r.limit)
        case Rejected(m) =>
          State() == old(State()).(loading := false, error := Some(MessageOr(m, "Failed to fetch tickets")))
    {
      match o
      case Pending =>
        loading := true;
        error := None;
      case Fulfilled(r) =>
        loading := false;
        tickets := r.tickets;
        total := r.total;
        page := r.page;
        limit := r.limit;
      case Rejected(m) =>
        loading := false;
        error := Some(MessageOr(m, "Failed to fetch tickets"));
    }

    /** Pending raises `actionLoading` but, unlike `FetchTickets`, does not clear `error`. */
    method FetchTicketById(o: Outcome<TicketDetail>)
      modifies this
      ensures match o
        case Pending => State() == old(State()).(actionLoading := true)
        case Fulfilled(t) => State() == old(State()).(actionLoading := false, selectedTicket := Some(t))
        case Rejected(m) =>
          State() == old(State()).(actionLoading := false, error := Some(MessageOr(m, "Failed to fetch ticket")))
    {
      match o
      case Pending =>
        actionLoading := true;
      case Fulfilled(t) =>
        actionLoading := false;
        selectedTicket := Some(t);
      case Rejected(m) =>
        actionLoading := false;
        error := Some(MessageOr(m, "Failed to fetch ticket"));
    }

    /** A new response is appended to the selected ticket's responses; without a selected ticket nothing changes. */
    method RespondToTicket(o: Outcome<TicketResponse>)
      modifies this
      ensures o.Fulfilled? && old(selectedTicket).Some? ==>
        State() == old(State()).(selectedTicket :=
          Some(old(selectedTicket).value.(responses := old(selectedTicket).value.responses + [o.payload])))
      ensures !o.Fulfilled? || old(selectedTicket).None? ==> State() == old(State())
    {
      if o.Fulfilled? && selectedTicket.Some? {
        var t := selectedTicket.value;
        selectedTicket := Some(t.(responses := t.responses + [o.payload]));
      }
    }

    /**
     * The first ticket with the payload's id is replaced, and the detail view is merged with
     * the payload only when it shows a ticket with that id.
     */
    method UpdateTicketStatus(o: Outcome<SupportTicket>)
      modifies this
      ensures o.Fulfilled? ==>
        State() == old(State()).(
          tickets := Seqs.ReplaceFirst(old(tickets), TicketId, o.payload),
          selectedTicket :=
            if old(selectedTicket).Some? && old(selectedTicket).value.ticket.id == o.payload.id
            then Some(MergeTicket(old(selectedTicket).value, o.payload))
            else old(selectedTicket))
      ensures !o.Fulfilled? ==> State() == old(State())
    {
      if o.Fulfilled? {
        var p := o.payload;
        var index := Seqs.FindIndex(tickets, TicketId, p.id);
        if index != -1 {
          tickets := tickets[index := p];
        }
        if selectedTicket.Some? && selectedTicket.value.ticket.id == p.id {
          selectedTicket := Some(MergeTicket(selectedTicket.value, p));
        }
      }
    }
  }
}
