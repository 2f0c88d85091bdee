/** The `update_ticket` agent tool: build an update object from the
    arguments that are neither null nor undefined, refuse an empty one,
    apply it to the ticket with the given id, and report the outcome as a
    result envelope. */
module UpdateTicketTool {
  import opened Common
  import opened Database

  /** The tool's arguments; None is a null or missing argument. */
  datatype UpdateArgs = UpdateArgs(
    ticketId: string,
    description: Option<string>,
    openedByPhoneNumber: Option<string>,
    latest: Option<string>,
    isOpen: Option<bool>)

  /** How the store call went: answered, answered with an error, or threw. */
  datatype Fault = NoFault | ErrorReturned(message: string) | Thrown(message: string)

  /** The envelope handed back to the agent. */
  datatype UpdateResult =
    | Updated(ticket: Ticket, updatedFields: seq<string>, message: string)
    | NotUpdated(error: string, message: string)

  const NoFieldsError := "No fields provided to update"
  const NoFieldsMessage := "At least one field must be provided to update the ticket"
  const NotFoundError := "Ticket not found"

  /** The pair carries the value the arguments supply for its column. */
  predicate Supplied(args: UpdateArgs, u: FieldUpdate) {
    match u
    case SetDescription(d) => args.description == Some(d)
    case SetOpenedByPhoneNumber(p) => args.openedByPhoneNumber == Some(p)
    case SetLatest(l) => args.latest == Some(l)
    case SetIsOpen(b) => args.isOpen == Some(b)
  }

  /** The columns the arguments supply, in the order the source checks them. */
  function SuppliedColumns(args: UpdateArgs): seq<TicketColumn> {
    (if args.description.Some? then [Description] else [])
    + (if args.openedByPhoneNumber.Some? then [OpenedByPhoneNumber] else [])
    + (if args.latest.Some? then [Latest] else [])
    + (if args.isOpen.Some? then [IsOpen] else [])
  }

  /** The pairs `execute` puts into `updateData`: one per argument that is
      present, in the order it checks them. */
  function UpdateData(args: UpdateArgs): seq<FieldUpdate> {
    (if args.description.Some? then [SetDescription(args.description.value)] else [])
    + (if args.openedByPhoneNumber.Some? then [SetOpenedByPhoneNumber(args.openedByPhoneNumber.value)] else [])
    + (if args.latest.Some? then [SetLatest(args.latest.value)] else [])
    + (if args.isOpen.Some? then [SetIsOpen(args.isOpen.value)] else [])
  }

  /** A ticket with every supplied argument written over its column. */
  function Patched(t: Ticket, args: UpdateArgs): Ticket {
    t.(description := args.description.GetOr(t.description),
       openedByPhoneNumber := args.openedByPhoneNumber.GetOr(t.openedByPhoneNumber),
       latest := args.latest.GetOr(t.latest),
       isOpen := args.isOpen.GetOr(t.isOpen))
  }

  function Names(cs: seq<TicketColumn>): (r: seq<string>)
    ensures |r| == |cs| && forall i :: 0 <= i < |cs| ==> r[i] == cs[i].Name()
  {
    if cs == [] then [] else [cs[0].Name()] + Names(cs[1..])
  }

  /** Fill `updateData` field by field: a field is added exactly when its
      argument is present, so `false` and the empty string count. */
  method BuildUpdateData(args: UpdateArgs) returns (data: seq<FieldUpdate>)
    ensures data == UpdateData(args)
    ensures data == [] <==> args.description.None? && args.openedByPhoneNumber.None?
                            && args.latest.None? && args.isOpen.None?
  {
    data := [];
    if args.description.Some? {
      data := data + [SetDescription(args.description.value)];
    }
    if args.openedByPhoneNumber.Some? {
      data := data + [SetOpenedByPhoneNumber(args.openedByPhoneNumber.value)];
    }
    if args.latest.Some? {
      data := data + [SetLatest(args.latest.value)];
    }
    if args.isOpen.Some? {
      data := data + [SetIsOpen(args.isOpen.value)];
    }
  }

  /** No column is supplied twice. */
  lemma SuppliedColumnsDistinct(args: UpdateArgs)
    ensures var cs := SuppliedColumns(args); forall i, j :: 0 <= i < j < |cs| ==> cs[i] != cs[j]
  {
  }

  /** The update object names exactly the supplied columns, in order. */
  lemma UpdateDataColumns(args: UpdateArgs)
    ensures Columns(UpdateData(args)) == SuppliedColumns(args)
  {
    var d := if args.description.Some? then [SetDescription(args.description.value)] else [];
    var p := if args.openedByPhoneNumber.Some? then [SetOpenedByPhoneNumber(args.openedByPhoneNumber.value)] else [];
    var l := if args.latest.Some? then [SetLatest(args.latest.value)] else [];
    var o := if args.isOpen.Some? then [SetIsOpen(args.isOpen.value)] else [];
    assert Columns(d) == if args.description.Some? then [Description] else [];
    assert Columns(p) == if args.openedByPhoneNumber.Some? then [OpenedByPhoneNumber] else [];
    assert Columns(l) == if args.latest.Some? then [Latest] else [];
    assert Columns(o) == if args.isOpen.Some? then [IsOpen] else [];
    ColumnsAppend(d, p);
    ColumnsAppend(d + p, l);
    ColumnsAppend(d + p + l, o);
  }

  /** The update object names each column at most once. */
  lemma UpdateDataDistinct(args: UpdateArgs)
    ensures DistinctColumns(UpdateData(args))
  {
    var data, cs := UpdateData(args), SuppliedColumns(args);
    UpdateDataColumns(args);
    SuppliedColumnsDistinct(args);
    forall i, j | 0 <= i < j < |data| ensures data[i].Column() != data[j].Column() {
      assert data[i].Column() == cs[i] && data[j].Column() == cs[j];
    }
  }

  /** The update object built from the arguments holds exactly the
      supplied pairs. */
  lemma UpdateDataExact(args: UpdateArgs)
    ensures forall u :: u in UpdateData(args) <==> Supplied(args, u)
  {
  }

  /** After the update, each column holds the supplied argument when there
      is one and its old value otherwise. */
  lemma UpdateDataDescription(t: Ticket, args: UpdateArgs)
    requires DistinctColumns(UpdateData(args))
    ensures ApplyUpdate(t, UpdateData(args)).description == args.description.GetOr(t.description)
  {
    if args.description.Some? {
      assert SetDescription(args.description.value) in UpdateData(args);
    } else {
      UpdateDataColumns(args);
    }
  }

  lemma UpdateDataOpenedBy(t: Ticket, args: UpdateArgs)
    requires DistinctColumns(UpdateData(args))
    ensures ApplyUpdate(t, UpdateData(args)).openedByPhoneNumber == args.openedByPhoneNumber.GetOr(t.openedByPhoneNumber)
  {
    if args.openedByPhoneNumber.Some? {
      assert SetOpenedByPhoneNumber(args.openedByPhoneNumber.value) in UpdateData(args);
    } else {
      UpdateDataColumns(args);
    }
  }

  lemma UpdateDataLatest(t: Ticket, args: UpdateArgs)
    requires DistinctColumns(UpdateData(args))
    ensures ApplyUpdate(t, UpdateData(args)).latest == args.latest.GetOr(t.latest)
  {
    if args.latest.Some? {
      assert SetLatest(args.latest.value) in UpdateData(args);
    } else {
      UpdateDataColumns(args);
    }
  }

  lemma UpdateDataIsOpen(t: Ticket, args: UpdateArgs)
    requires DistinctColumns(UpdateData(args))
    ensures ApplyUpdate(t, UpdateData(args)).isOpen == args.isOpen.GetOr(t.isOpen)
  {
    if args.isOpen.Some? {
      assert SetIsOpen(args.isOpen.value) in UpdateData(args);
    } else {
      UpdateDataColumns(args);
    }
  }

  /** Applying that update object to a row writes exactly the supplied
      arguments over it. */
  lemma UpdateDataApplies(t: Ticket, args: UpdateArgs)
    ensures DistinctColumns(UpdateData(args))
    ensures ApplyUpdate(t, UpdateData(args)) == Patched(t, args)
  {
    UpdateDataDistinct(args);
    UpdateDataDescription(t, args);
    UpdateDataOpenedBy(t, args);
    UpdateDataLatest(t, args);
    UpdateDataIsOpen(t, args);
  }

  /** `execute`: an empty update is refused without a write; a store error
      or exception is reported with its message and writes nothing; no row
      with the id is "Ticket not found"; otherwise the row's supplied
      fields change and the updated row and field names are reported. */
  method Execute(store: Store, args: UpdateArgs, fault: Fault) returns (r: UpdateResult)
    requires store.Valid()
    modifies store
    ensures store.Valid()
    ensures store.chats == old(store.chats) && store.messages == old(store.messages)
    ensures SuppliedColumns(args) == [] ==> r == NotUpdated(NoFieldsError, NoFieldsMessage)
    ensures SuppliedColumns(args) == [] || !fault.NoFault? ==> store.tickets == old(store.tickets)
    ensures SuppliedColumns(args) != [] && fault.ErrorReturned? ==>
              r == NotUpdated(fault.message, "Failed to update ticket: " + fault.message)
    ensures SuppliedColumns(args) != [] && fault.Thrown? ==>
              r == NotUpdated(fault.message, "Exception updating ticket: " + fault.message)
    ensures SuppliedColumns(args) != [] && fault.NoFault? ==>
              |store.tickets| == |old(store.tickets)|
              && forall i :: 0 <= i < |store.tickets| ==>
                   store.tickets[i] == if old(store.tickets)[i].id == args.ticketId
                                       then Patched(old(store.tickets)[i], args) else old(store.tickets)[i]
    ensures SuppliedColumns(args) != [] && fault.NoFault? && FindTicket(old(store.tickets), args.ticketId).None? ==>
              r == NotUpdated(NotFoundError, "No ticket found with ID: " + args.ticketId)
              && store.tickets == old(store.tickets)
    ensures SuppliedColumns(args) != [] && fault.NoFault? && FindTicket(old(store.tickets), args.ticketId).Some? ==>
              r.Updated?
              && r.ticket == Patched(FindTicket(old(store.tickets), args.ticketId).value, args)
              && r.updatedFields == Names(SuppliedColumns(args))
              && r.message == "Ticket " + args.ticketId + " updated successfully. Updated fields: "
                              + Join(r.updatedFields, ", ")
  {
    var data := BuildUpdateData(args);
    if |data| == 0 {
      return NotUpdated(NoFieldsError, NoFieldsMessage);
    }
    if fault.Thrown? {
      return NotUpdated(fault.message, "Exception updating ticket: " + fault.message);
    }
    UpdateDataColumns(args);
    UpdateDataDistinct(args);
    forall t: Ticket ensures ApplyUpdate(t, data) == Patched(t, args) {
      UpdateDataApplies(t, args);
    }
    var rows := store.UpdateTickets(args.ticketId, data, if fault.ErrorReturned? then Some(fault.message) else None);
    if rows.Err? {
      return NotUpdated(rows.error, "Failed to update ticket: " + rows.error);
    }
    if |rows.value| == 0 {
      assert store.tickets == old(store.tickets);
      return NotUpdated(NotFoundError, "No ticket found with ID: " + args.ticketId);
    }
    var fields := Names(Columns(data));
    r := Updated(rows.value[0], fields,
                 "Ticket " + args.ticketId + " updated successfully. Updated fields: " + Join(fields, ", "));
  }
}
