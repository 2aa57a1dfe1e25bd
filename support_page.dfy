/**
 * app/dashboard/support/page.tsx: the support-ticket table over a local list of tickets. The list
 * is bound without a setter (`const [tickets] = useState(...)`), so nothing on the page changes
 * it: the page only filters, counts and displays.
 */
module SupportPage {
  import opened Wrappers
  import opened Strings
  import opened Seqs
  import opened Entities

  const All := "all"
  const Unassigned := "Unassigned"

  /** The page's own `SupportTicket` record (not the API's). */
  datatype Ticket = Ticket(
    id: string, userName: string, userEmail: string, subject: string, description: string,
    status: TicketStatus, priority: Priority, category: string, createdAt: string,
    assignedTo: Option<string>)

  /**
   * The search matches the subject or the user's name, ignoring case (ASCII); the e-mail is not
   * searched. The empty query matches every ticket.
   */
  predicate MatchesSearch(t: Ticket, query: string)
    ensures query == "" ==> MatchesSearch(t, query)
  {
    ContainsTrivial(ToLower(t.subject));
    Contains(ToLower(t.subject), ToLower(query)) || Contains(ToLower(t.userName), ToLower(query))
  }

  /** Typing the query in lower case finds the same tickets. */
  lemma MatchesSearchIgnoresCase(t: Ticket, query: string)
    ensures MatchesSearch(t, ToLower(query)) <==> MatchesSearch(t, query)
  {
    ToLowerIdempotent(query);
  }

  /**
   * A ticket is listed when the search matches and the drop-down is "all" or names its status;
   * with nothing typed and the drop-down on "all", every ticket is.
   */
  predicate Listed(t: Ticket, query: string, statusFilter: string)
    ensures query == "" && statusFilter == All ==> Listed(t, query, statusFilter)
    ensures statusFilter != All && Listed(t, query, statusFilter) ==> TicketStatusName(t.status) == statusFilter
  {
    MatchesSearch(t, query) && (statusFilter == All || TicketStatusName(t.status) == statusFilter)
  }

  /** `filteredTickets`. */
  function FilteredTickets(tickets: seq<Ticket>, query: string, statusFilter: string): (r: seq<Ticket>)
    ensures forall t :: t in r <==> t in tickets && Listed(t, query, statusFilter)
    ensures IsSubseq(r, tickets)
  {
    Filter(tickets, t => Listed(t, query, statusFilter))
  }

  /** With an empty search and the drop-down on "all", every ticket is listed, in order. */
  lemma UnfilteredShowsAll(tickets: seq<Ticket>)
    ensures FilteredTickets(tickets, "", All) == tickets
  {
    forall t | t in tickets ensures Listed(t, "", All) {
      ContainsTrivial(ToLower(t.subject));
    }
    FilterAll(tickets, t => Listed(t, "", All));
  }

  predicate IsOpen(t: Ticket) { t.status == Open }
  predicate IsInProgress(t: Ticket) { t.status == InProgress }
  predicate IsDone(t: Ticket) { t.status == Resolved || t.status == Closed }
  predicate IsResolved(t: Ticket) { t.status == Resolved }
  predicate IsClosed(t: Ticket) { t.status == Closed }

  datatype TicketStats = TicketStats(total: nat, open: nat, inProgress: nat, resolved: nat)

  /**
   * The stat cards. "Resolved" counts both resolved and closed tickets, so the three cards
   * account for every ticket.
   */
  function Stats(tickets: seq<Ticket>): (s: TicketStats)
    ensures s.total == |tickets|
    ensures s.open == Count(tickets, IsOpen) && s.inProgress == Count(tickets, IsInProgress)
    ensures s.resolved == Count(tickets, IsResolved) + Count(tickets, IsClosed)
    ensures s.open + s.inProgress + s.resolved == s.total
  {
    CountThree(tickets, IsOpen, IsInProgress, IsDone);
    CountSplit(tickets, IsDone, IsResolved, IsResolved, IsClosed);
    TicketStats(|tickets|, Count(tickets, IsOpen), Count(tickets, IsInProgress), Count(tickets, IsDone))
  }

  /** The "Assigned To" field: the assignee, or "Unassigned" when there is none (or it is empty). */
  function AssigneeLabel(t: Ticket): (shown: string)
    ensures Truthy(t.assignedTo) ==> shown == t.assignedTo.value
    ensures !Truthy(t.assignedTo) ==> shown == Unassigned
    ensures shown != ""
  {
    if Truthy(t.assignedTo) then t.assignedTo.value else Unassigned
  }
}
