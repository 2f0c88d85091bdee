/** The `create_ticket` agent tool: insert an open ticket through the store
    and wrap the store's answer into the envelope the agent reads. */
module CreateTicketTool {
  import opened Common
  import opened Database

  /** The envelope handed back to the agent. */
  datatype CreateResult =
    | Created(ticket: Ticket, message: string)
    | NotCreated(error: string, message: string)

  const CreatedPrefix := "Ticket created successfully with ID: "
  const FailedPrefix := "Failed to create ticket: "

  /** A successful store answer becomes a success naming the new id, a
      failed one a failure repeating the store's error. */
  function Envelope(r: Result<Ticket>): (e: CreateResult)
    ensures e.Created? <==> r.Ok?
    ensures r.Ok? ==> e.ticket == r.value && e.message == CreatedPrefix + r.value.id
    ensures r.Err? ==> e.error == r.error && e.message == FailedPrefix + r.error
  {
    match r
    case Ok(t) => Created(t, CreatedPrefix + t.id)
    case Err(msg) => NotCreated(msg, FailedPrefix + msg)
  }

  /** The store answer an envelope was built from. */
  function StoreAnswer(e: CreateResult): (r: Result<Ticket>)
    ensures e.Created? <==> r.Ok?
  {
    match e
    case Created(t, _) => Ok(t)
    case NotCreated(msg, _) => Err(msg)
  }

  /** Nothing of the store's answer is lost in the envelope. */
  lemma {:induction false} EnvelopeKeepsAnswer(r: Result<Ticket>)
    ensures StoreAnswer(Envelope(r)) == r
  {
    match r
    case Ok(t) =>
    case Err(msg) =>
  }

  /** `execute`: on success the table gains one open ticket with the given
      text, which the open-tickets query then lists first; on a store error
      the table is unchanged and the error is reported. */
  method Execute(store: Store, description: string, openedByPhoneNumber: string, latest: string,
                 newId: string, fault: Option<string>) returns (e: CreateResult)
    requires store.Valid()
    requires forall t :: t in store.tickets ==> t.id != newId
    modifies store
    ensures store.Valid()
    ensures store.chats == old(store.chats) && store.messages == old(store.messages)
    ensures fault.Some? ==> e == NotCreated(fault.value, FailedPrefix + fault.value)
                            && store.tickets == old(store.tickets)
    ensures fault.None? ==>
              e.Created? && e.message == CreatedPrefix + newId
              && e.ticket == Ticket(newId, description, openedByPhoneNumber, latest, true, old(store.clock))
              && store.tickets == old(store.tickets) + [e.ticket]
              && OpenTicketsOf(store.tickets) == [e.ticket] + OpenTicketsOf(old(store.tickets))
  {
    var r := store.CreateTicket(description, openedByPhoneNumber, Some(latest), newId, fault);
    if r.Ok? {
      CreatedTicketListedFirst(old(store.tickets), r.value);
    }
    e := Envelope(r);
  }
}
