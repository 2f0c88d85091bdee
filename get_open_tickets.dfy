/** The `get_open_tickets` agent tool: the store's open tickets with their
    count, or an empty list and a zero count on a store error. */
module GetOpenTicketsTool {
  import opened Common
  import opened Database

  /** The envelope handed back to the agent. */
  datatype OpenTicketsResult = OpenTicketsResult(
    success: bool,
    error: Option<string>,
    tickets: seq<Ticket>,
    count: nat)

  /** The count always equals the number of tickets returned; a failure
      carries the store's error and no tickets. */
  function Envelope(r: Result<seq<Ticket>>): (e: OpenTicketsResult)
    ensures e.success <==> r.Ok?
    ensures e.count == |e.tickets|
    ensures r.Ok? ==> e.tickets == r.value && e.error.None?
    ensures r.Err? ==> e.tickets == [] && e.error == Some(r.error)
  {
    match r
    case Ok(ts) => OpenTicketsResult(true, None, ts, |ts|)
    case Err(msg) => OpenTicketsResult(false, Some(msg), [], 0)
  }

  /** `execute`: exactly the open tickets, newest first, and how many. */
  function Execute(store: Store, fault: Option<string>): (e: OpenTicketsResult)
    requires store.Valid()
    reads store
    ensures e.success <==> fault.None?
    ensures e.count == |e.tickets|
    ensures fault.Some? ==> e.tickets == [] && e.error == fault
    ensures fault.None? ==> forall t :: t in e.tickets <==> t in store.tickets && t.isOpen
    ensures forall i, j :: 0 <= i < j < |e.tickets| ==> e.tickets[i].createdAt > e.tickets[j].createdAt
  {
    OpenTicketsNewestFirst(store.tickets);
    Envelope(store.GetOpenTickets(fault))
  }
}
