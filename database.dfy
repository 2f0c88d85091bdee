/** The ticket, chat and message store (`utils/database.js`). The three
    tables are sequences in insertion order inside a `Store` object;
    `created_at` is an abstract clock that every insert reads and advances,
    so the ticket and message tables are strictly ascending in
    `created_at` (chats carry no creation time). A failure of the
    backing service on a call is an oracle argument (`fault`, the error
    message). */
module Database {
  import opened Common

  /** A row of `tickets`. */
  datatype Ticket = Ticket(
    id: string,
    description: string,
    openedByPhoneNumber: string,
    latest: string,
    isOpen: bool,
    createdAt: nat)

  /** A row of `chats`, keyed by (`business_id`, `user_id`). */
  datatype Chat = Chat(id: nat, businessId: string, userId: string)

  /** A row of `messages`. */
  datatype Message = Message(
    id: nat,
    chatId: nat,
    text: Option<string>,
    imageUrl: Option<string>,
    imageDescription: Option<string>,
    isUser: bool,
    createdAt: nat)

  /** The writable columns of `tickets`. */
  datatype TicketColumn = Description | OpenedByPhoneNumber | Latest | IsOpen {
    /** The column's name, as it appears as a key of an update object. */
    function Name(): string {
      match this
      case Description => "description"
      case OpenedByPhoneNumber => "opened_by_phone_number"
      case Latest => "latest"
      case IsOpen => "is_open"
    }
  }

  /** One key/value pair of an update object. */
  datatype FieldUpdate =
    | SetDescription(description: string)
    | SetOpenedByPhoneNumber(phone: string)
    | SetLatest(latest: string)
    | SetIsOpen(isOpen: bool)
  {
    function Column(): TicketColumn {
      match this
      case SetDescription(_) => Description
      case SetOpenedByPhoneNumber(_) => OpenedByPhoneNumber
      case SetLatest(_) => Latest
      case SetIsOpen(_) => IsOpen
    }
  }

  /** The columns an update object names, in its key order. */
  function Columns(data: seq<FieldUpdate>): (cs: seq<TicketColumn>)
    ensures |cs| == |data|
    ensures forall i :: 0 <= i < |data| ==> cs[i] == data[i].Column()
  {
    if data == [] then [] else [data[0].Column()] + Columns(data[1..])
  }

  lemma ColumnsAppend(a: seq<FieldUpdate>, b: seq<FieldUpdate>)
    ensures Columns(a + b) == Columns(a) + Columns(b)
  {
    var l, r := Columns(a + b), Columns(a) + Columns(b);
    forall i | 0 <= i < |l| ensures l[i] == r[i] {
      if i >= |a| {
        assert (a + b)[i] == b[i - |a|];
      }
    }
  }

  /** An update object has each key at most once. */
  predicate DistinctColumns(data: seq<FieldUpdate>) {
    forall i, j :: 0 <= i < j < |data| ==> data[i].Column() != data[j].Column()
  }

  /** The row holds the value the pair assigns. */
  predicate Sets(t: Ticket, u: FieldUpdate) {
    match u
    case SetDescription(d) => t.description == d
    case SetOpenedByPhoneNumber(p) => t.openedByPhoneNumber == p
    case SetLatest(l) => t.latest == l
    case SetIsOpen(b) => t.isOpen == b
  }

  function ApplyField(t: Ticket, u: FieldUpdate): Ticket {
    match u
    case SetDescription(d) => t.(description := d)
    case SetOpenedByPhoneNumber(p) => t.(openedByPhoneNumber := p)
    case SetLatest(l) => t.(latest := l)
    case SetIsOpen(b) => t.(isOpen := b)
  }

  /** A row after `update(data)`: every named column holds its new value,
      every other column (and the id and creation time) is unchanged. */
  function ApplyUpdate(t: Ticket, data: seq<FieldUpdate>): (r: Ticket)
    requires DistinctColumns(data)
    ensures r.id == t.id && r.createdAt == t.createdAt
    ensures forall u :: u in data ==> Sets(r, u)
    ensures Description !in Columns(data) ==> r.description == t.description
    ensures OpenedByPhoneNumber !in Columns(data) ==> r.openedByPhoneNumber == t.openedByPhoneNumber
    ensures Latest !in Columns(data) ==> r.latest == t.latest
    ensures IsOpen !in Columns(data) ==> r.isOpen == t.isOpen
    decreases |data|
  {
    if data == [] then t
    else
      DistinctColumnsTail(data);
      ApplyUpdate(ApplyField(t, data[0]), data[1..])
  }

  /** The keys after the first are distinct and do not repeat it. */
  lemma DistinctColumnsTail(data: seq<FieldUpdate>)
    requires data != [] && DistinctColumns(data)
    ensures DistinctColumns(data[1..])
    ensures Columns(data) == [data[0].Column()] + Columns(data[1..])
    ensures data[0].Column() !in Columns(data[1..])
    ensures forall u :: u in data ==> u == data[0] || u in data[1..]
  {
    forall k | 0 <= k < |data[1..]| ensures Columns(data[1..])[k] != data[0].Column() {
      assert data[1..][k] == data[k + 1];
    }
  }

  /** An update object with one pair just sets that column. */
  lemma ApplyOne(t: Ticket, u: FieldUpdate)
    ensures DistinctColumns([u]) && ApplyUpdate(t, [u]) == ApplyField(t, u)
  {
    assert [u][1..] == [];
  }

  /** `after` is `before` with the single update `u` applied to every row
      whose id is `id`, and every other row as it was. */
  predicate RowsUpdatedWith(before: seq<Ticket>, after: seq<Ticket>, id: string, u: FieldUpdate) {
    |after| == |before| &&
    forall i :: 0 <= i < |before| ==>
      after[i] == if before[i].id == id then ApplyField(before[i], u) else before[i]
  }

  /** With a one-pair update object, the rows with the id get that pair's
      value and every other row is left as it was. */
  lemma UpdateRowsOne(ts: seq<Ticket>, id: string, u: FieldUpdate)
    ensures DistinctColumns([u])
    ensures RowsUpdatedWith(ts, UpdateRows(ts, id, [u]), id, u)
  {
    forall i | 0 <= i < |ts| && ts[i].id == id ensures ApplyUpdate(ts[i], [u]) == ApplyField(ts[i], u) {
      ApplyOne(ts[i], u);
    }
  }

  /** The ticket table after `update(data).eq('id', id)`: the rows with that
      id are updated, every other row is left as it was. */
  function UpdateRows(ts: seq<Ticket>, id: string, data: seq<FieldUpdate>): (r: seq<Ticket>)
    requires DistinctColumns(data)
    ensures |r| == |ts|
    ensures forall i :: 0 <= i < |ts| ==> r[i] == if ts[i].id == id then ApplyUpdate(ts[i], data) else ts[i]
    ensures forall i :: 0 <= i < |ts| ==> r[i].id == ts[i].id && r[i].createdAt == ts[i].createdAt
  {
    if ts == [] then []
    else [if ts[0].id == id then ApplyUpdate(ts[0], data) else ts[0]] + UpdateRows(ts[1..], id, data)
  }

  /** An update leaves every row's id and creation time where they were, so
      the table keeps unique ids and ascending creation times. */
  lemma UpdateRowsKeepsKeys(ts: seq<Ticket>, id: string, data: seq<FieldUpdate>, clock: nat)
    requires DistinctColumns(data)
    requires UniqueTicketIds(ts) && Ascending(ts, TicketCreatedAt)
    requires forall t :: t in ts ==> t.createdAt < clock
    ensures UniqueTicketIds(UpdateRows(ts, id, data)) && Ascending(UpdateRows(ts, id, data), TicketCreatedAt)
    ensures forall t :: t in UpdateRows(ts, id, data) ==> t.createdAt < clock
  {
    var r := UpdateRows(ts, id, data);
    forall i, j | 0 <= i < j < |r| ensures r[i].id != r[j].id && TicketCreatedAt(r[i]) < TicketCreatedAt(r[j]) {
      assert TicketCreatedAt(ts[i]) < TicketCreatedAt(ts[j]);
    }
    forall t | t in r ensures t.createdAt < clock {
      var k :| 0 <= k < |r| && r[k] == t;
      assert ts[k] in ts;
    }
  }

  /** The rows `.eq('id', id)` selects. */
  function RowsWithId(ts: seq<Ticket>, id: string): seq<Ticket> {
    Filter(ts, (t: Ticket) => t.id == id)
  }

  /** The first row with that id, if any. */
  function FindTicket(ts: seq<Ticket>, id: string): (r: Option<Ticket>)
    ensures r.Some? ==> r.value in ts && r.value.id == id
    ensures r.None? <==> forall t :: t in ts ==> t.id != id
  {
    if ts == [] then None else if ts[0].id == id then Some(ts[0]) else FindTicket(ts[1..], id)
  }

  predicate UniqueTicketIds(ts: seq<Ticket>) {
    forall i, j :: 0 <= i < j < |ts| ==> ts[i].id != ts[j].id
  }

  /** With unique ids, `update(...).eq('id', id).select()` returns the one
      updated row when a row has that id, and nothing otherwise. */
  lemma {:induction false} UpdatedRowsSelected(ts: seq<Ticket>, id: string, data: seq<FieldUpdate>)
    requires UniqueTicketIds(ts) && DistinctColumns(data)
    ensures RowsWithId(UpdateRows(ts, id, data), id)
            == if FindTicket(ts, id).Some? then [ApplyUpdate(FindTicket(ts, id).value, data)] else []
  {
    if ts != [] {
      var keep := (t: Ticket) => t.id == id;
      var all, rest := UpdateRows(ts, id, data), UpdateRows(ts[1..], id, data);
      assert all == [all[0]] + rest;
      FilterAppend([all[0]], rest, keep);
      assert UniqueTicketIds(ts[1..]) by {
        forall i, j | 0 <= i < j < |ts[1..]| ensures ts[1..][i].id != ts[1..][j].id {
          assert ts[1..][i] == ts[i + 1] && ts[1..][j] == ts[j + 1];
        }
      }
      UpdatedRowsSelected(ts[1..], id, data);
      if ts[0].id == id {
        assert FindTicket(ts[1..], id).None? by {
          forall t | t in ts[1..] ensures t.id != id {
            var k :| 0 <= k < |ts[1..]| && ts[1..][k] == t;
            assert ts[k + 1] == t;
          }
        }
      }
    }
  }

  /** Strictly ascending by a key. */
  predicate Ascending<T>(s: seq<T>, key: T -> int) {
    forall i, j :: 0 <= i < j < |s| ==> key(s[i]) < key(s[j])
  }

  /** Filtering keeps the relative order of what it keeps. */
  lemma {:induction false} FilterAscending<T(!new)>(s: seq<T>, keep: T -> bool, key: T -> int)
    requires Ascending(s, key)
    ensures Ascending(Filter(s, keep), key)
  {
    if s != [] {
      FilterAscending(s[1..], keep, key);
      var rest := Filter(s[1..], keep);
      assert forall x :: x in rest ==> key(s[0]) < key(x) by {
        forall x | x in rest ensures key(s[0]) < key(x) {
          var k :| 0 <= k < |s[1..]| && s[1..][k] == x;
          assert s[k + 1] == x;
        }
      }
    }
  }

  /** A suffix of an ascending sequence is ascending. */
  lemma SuffixAscending<T>(s: seq<T>, k: nat, key: T -> int)
    requires Ascending(s, key) && k <= |s|
    ensures Ascending(s[k..], key)
  {
    forall i, j | 0 <= i < j < |s| - k ensures key(s[k..][i]) < key(s[k..][j]) {
      assert s[k..][i] == s[k + i] && s[k..][j] == s[k + j];
    }
  }

  function TicketCreatedAt(t: Ticket): int { t.createdAt }

  /** `select('*').eq('is_open', true).order('created_at', desc)` on a table
      kept in ascending creation order. */
  function OpenTicketsOf(ts: seq<Ticket>): (r: seq<Ticket>)
    ensures forall t :: t in r <==> t in ts && t.isOpen
  {
    Reverse(Filter(ts, (t: Ticket) => t.isOpen))
  }

  /** The open-tickets query lists newest first. */
  lemma {:induction false} OpenTicketsNewestFirst(ts: seq<Ticket>)
    requires Ascending(ts, TicketCreatedAt)
    ensures forall i, j :: 0 <= i < j < |OpenTicketsOf(ts)| ==> OpenTicketsOf(ts)[i].createdAt > OpenTicketsOf(ts)[j].createdAt
  {
    var f := Filter(ts, (t: Ticket) => t.isOpen);
    FilterAscending(ts, (t: Ticket) => t.isOpen, TicketCreatedAt);
    assert forall i, j :: 0 <= i < j < |f| ==> f[i].createdAt < f[j].createdAt by {
      forall i, j | 0 <= i < j < |f| ensures f[i].createdAt < f[j].createdAt {
        assert TicketCreatedAt(f[i]) < TicketCreatedAt(f[j]);
      }
    }
  }

  /** A ticket inserted open is listed first, before every ticket that was
      already open, which keep their order. */
  lemma {:induction false} CreatedTicketListedFirst(ts: seq<Ticket>, t: Ticket)
    requires t.isOpen
    ensures OpenTicketsOf(ts + [t]) == [t] + OpenTicketsOf(ts)
  {
    var keep := (x: Ticket) => x.isOpen;
    FilterAppend(ts, [t], keep);
    assert Filter([t], keep) == [t];
    ReverseAppend(Filter(ts, keep), t);
  }

  /** How many rows `getLastMessages` reads. */
  const HistoryLimit := 10

  function Min(a: nat, b: nat): nat { if a < b then a else b }

  /** `order('created_at', desc).limit(10)` on a chat's messages kept in
      ascending order, then `reverse()`. */
  function LastMessagesOf(ms: seq<Message>): (r: seq<Message>)
    ensures |r| == Min(|ms|, HistoryLimit)
  {
    var newestFirst := Reverse(ms);
    Reverse(newestFirst[..Min(|ms|, HistoryLimit)])
  }

  /** The rows read are the chat's 10 most recent messages, oldest first. */
  lemma {:induction false} LastMessagesAreMostRecent(ms: seq<Message>)
    ensures LastMessagesOf(ms) == ms[|ms| - Min(|ms|, HistoryLimit)..]
  {
    var n, k := |ms|, Min(|ms|, HistoryLimit);
    var r, want := LastMessagesOf(ms), ms[n - k..];
    forall i | 0 <= i < k ensures r[i] == want[i] {
      assert r[i] == Reverse(ms)[..k][k - 1 - i];
    }
  }

  /** `.eq('chat_id', chatId)` on the messages table. */
  function MessagesOf(ms: seq<Message>, chatId: nat): (r: seq<Message>)
    ensures forall m :: m in r <==> m in ms && m.chatId == chatId
  {
    Filter(ms, (m: Message) => m.chatId == chatId)
  }

  /** The chat with that key, if any. */
  function FindChat(cs: seq<Chat>, businessId: string, userId: string): (r: Option<Chat>)
    ensures r.Some? ==> r.value in cs && r.value.businessId == businessId && r.value.userId == userId
    ensures r.None? <==> forall c :: c in cs ==> c.businessId != businessId || c.userId != userId
  {
    if cs == [] then None
    else if cs[0].businessId == businessId && cs[0].userId == userId then Some(cs[0])
    else FindChat(cs[1..], businessId, userId)
  }

  /** A chat appended for a key no chat had is the one found for it. */
  lemma {:induction false} FindChatAppended(cs: seq<Chat>, c: Chat)
    requires FindChat(cs, c.businessId, c.userId).None?
    ensures FindChat(cs + [c], c.businessId, c.userId) == Some(c)
  {
    if cs != [] {
      assert (cs + [c])[1..] == cs[1..] + [c];
      FindChatAppended(cs[1..], c);
    }
  }

  predicate UniqueChatKeys(cs: seq<Chat>) {
    forall i, j :: 0 <= i < j < |cs| ==> cs[i].businessId != cs[j].businessId || cs[i].userId != cs[j].userId
  }

  predicate UniqueChatIds(cs: seq<Chat>) {
    forall i, j :: 0 <= i < j < |cs| ==> cs[i].id != cs[j].id
  }

  function MessageCreatedAt(m: Message): int { m.createdAt }

  /** A chat for a new key with an id above all others keeps keys and ids unique. */
  lemma AppendChatKeepsUnique(cs: seq<Chat>, c: Chat)
    requires UniqueChatKeys(cs) && UniqueChatIds(cs)
    requires FindChat(cs, c.businessId, c.userId).None?
    requires forall x :: x in cs ==> x.id < c.id
    ensures UniqueChatKeys(cs + [c]) && UniqueChatIds(cs + [c])
  {
    var n := cs + [c];
    forall i, j | 0 <= i < j < |n|
      ensures (n[i].businessId != n[j].businessId || n[i].userId != n[j].userId) && n[i].id != n[j].id
    {
      if j == |cs| {
        assert n[i] in cs;
      }
    }
  }

  /** A row stamped after every other keeps the table ascending. */
  lemma AppendKeepsAscending<T>(s: seq<T>, x: T, key: T -> int)
    requires Ascending(s, key)
    requires forall y :: y in s ==> key(y) < key(x)
    ensures Ascending(s + [x], key)
  {
    var n := s + [x];
    forall i, j | 0 <= i < j < |n| ensures key(n[i]) < key(n[j]) {
      if j == |s| {
        assert n[i] in s;
      }
    }
  }

  /** Inserting one message adds it to its own chat's messages only. */
  lemma MessagesOfAppend(ms: seq<Message>, m: Message, chatId: nat)
    ensures MessagesOf(ms + [m], chatId) == MessagesOf(ms, chatId) + (if m.chatId == chatId then [m] else [])
  {
    FilterAppend(ms, [m], (x: Message) => x.chatId == chatId);
  }

  /** The three tables and the counters behind `created_at` and the row ids. */
  class Store {
    var tickets: seq<Ticket>
    var chats: seq<Chat>
    var messages: seq<Message>
    var clock: nat      // the next `created_at`
    var nextRowId: nat  // the next chat or message id

    /** Ticket ids and chat keys are unique, chat ids are unique and below
        the id counter (so a new chat owns no message), and creation times
        ascend in table order and lie below the clock. */
    ghost predicate Valid()
      reads this
    {
      && UniqueTicketIds(tickets)
      && Ascending(tickets, TicketCreatedAt)
      && (forall t :: t in tickets ==> t.createdAt < clock)
      && UniqueChatKeys(chats)
      && UniqueChatIds(chats)
      && (forall c :: c in chats ==> c.id < nextRowId)
      && Ascending(messages, MessageCreatedAt)
      && (forall m :: m in messages ==> m.createdAt < clock && m.id < nextRowId && m.chatId < nextRowId)
    }

    constructor ()
      ensures Valid()
      ensures tickets == [] && chats == [] && messages == []
    {
      tickets, chats, messages := [], [], [];
      clock, nextRowId := 0, 0;
    }

    /** `createTicket(description, opened_by_phone_number, latest = '')`:
        one open ticket is inserted, stamped with the clock and carrying the
        id the store generated (`newId`); on a store error nothing changes. */
    method CreateTicket(description: string, openedByPhoneNumber: string, latest: Option<string>,
                        newId: string, fault: Option<string>) returns (r: Result<Ticket>)
      requires Valid()
      requires forall t :: t in tickets ==> t.id != newId
      modifies this
      ensures Valid()
      ensures fault.Some? ==> r == Err(fault.value) && tickets == old(tickets)
      ensures fault.None? ==> r == Ok(Ticket(newId, description, openedByPhoneNumber, latest.GetOr(""), true, old(clock)))
      ensures fault.None? ==> tickets == old(tickets) + [r.value]
      ensures chats == old(chats) && messages == old(messages)
    {
      if fault.Some? {
        return Err(fault.value);
      }
      var t := Ticket(newId, description, openedByPhoneNumber, latest.GetOr(""), true, clock);
      AppendKeepsAscending(tickets, t, TicketCreatedAt);
      assert UniqueTicketIds(tickets + [t]) by {
        forall i, j | 0 <= i < j < |tickets| + 1 ensures (tickets + [t])[i].id != (tickets + [t])[j].id {
          if j == |tickets| {
            assert tickets[i] in tickets;
          }
        }
      }
      tickets := tickets + [t];
      clock := clock + 1;
      r := Ok(t);
    }

    /** `getOpenTickets()`. */
    function GetOpenTickets(fault: Option<string>): (r: Result<seq<Ticket>>)
      reads this
      ensures fault.Some? ==> r == Err(fault.value)
      ensures fault.None? ==> r.Ok? && forall t :: t in r.value <==> t in tickets && t.isOpen
    {
      if fault.Some? then Err(fault.value) else Ok(OpenTicketsOf(tickets))
    }

    /** `from('tickets').update(data).eq('id', id).select()`: the rows with
        that id get the update and are returned; on a store error nothing
        changes. */
    method UpdateTickets(id: string, data: seq<FieldUpdate>, fault: Option<string>) returns (r: Result<seq<Ticket>>)
      requires Valid() && DistinctColumns(data)
      modifies this
      ensures Valid()
      ensures fault.Some? ==> r == Err(fault.value) && tickets == old(tickets)
      ensures fault.None? ==> tickets == UpdateRows(old(tickets), id, data)
      ensures fault.None? ==> r == Ok(if FindTicket(old(tickets), id).Some?
                                      then [ApplyUpdate(FindTicket(old(tickets), id).value, data)] else [])
      ensures chats == old(chats) && messages == old(messages) && clock == old(clock) && nextRowId == old(nextRowId)
    {
      if fault.Some? {
        return Err(fault.value);
      }
      UpdatedRowsSelected(tickets, id, data);
      UpdateRowsKeepsKeys(tickets, id, data, clock);
      tickets := UpdateRows(tickets, id, data);
      r := Ok(RowsWithId(tickets, id));
    }

    /** `closeTicket(id)`: `is_open` becomes false on the row with that id
        and nothing else changes; the result is that row, or none when no
        row has the id (the source then reports success with no data). */
    method CloseTicket(id: string, fault: Option<string>) returns (r: Result<Option<Ticket>>)
      requires Valid()
      modifies this
      ensures Valid()
      ensures fault.Some? ==> r == Err(fault.value) && tickets == old(tickets)
      ensures fault.None? ==> RowsUpdatedWith(old(tickets), tickets, id, SetIsOpen(false))
      ensures fault.None? ==> r == Ok(if FindTicket(old(tickets), id).Some?
                                      then Some(ApplyField(FindTicket(old(tickets), id).value, SetIsOpen(false))) else None)
      ensures chats == old(chats) && messages == old(messages)
    {
      UpdateRowsOne(tickets, id, SetIsOpen(false));
      if FindTicket(tickets, id).Some? {
        ApplyOne(FindTicket(tickets, id).value, SetIsOpen(false));
      }
      var rows := UpdateTickets(id, [SetIsOpen(false)], fault);
      match rows
      case Err(e) => r := Err(e);
      case Ok(data) => r := Ok(if |data| > 0 then Some(data[0]) else None);
    }

    /** `updateTicketLatest(id, latest)`: only `latest` of the row with that
        id changes. */
    method UpdateTicketLatest(id: string, latest: string, fault: Option<string>) returns (r: Result<Option<Ticket>>)
      requires Valid()
      modifies this
      ensures Valid()
      ensures fault.Some? ==> r == Err(fault.value) && tickets == old(tickets)
      ensures fault.None? ==> RowsUpdatedWith(old(tickets), tickets, id, SetLatest(latest))
      ensures fault.None? ==> r == Ok(if FindTicket(old(tickets), id).Some?
                                      then Some(ApplyField(FindTicket(old(tickets), id).value, SetLatest(latest))) else None)
      ensures chats == old(chats) && messages == old(messages)
    {
      UpdateRowsOne(tickets, id, SetLatest(latest));
      if FindTicket(tickets, id).Some? {
        ApplyOne(FindTicket(tickets, id).value, SetLatest(latest));
      }
      var rows := UpdateTickets(id, [SetLatest(latest)], fault);
      match rows
      case Err(e) => r := Err(e);
      case Ok(data) => r := Ok(if |data| > 0 then Some(data[0]) else None);
    }

    /** `getLastMessages(businessId, userId)`: an empty list when the key
        has no chat, otherwise the chat's last messages. `lookupFault` is a
        lookup error other than "no row"; `queryFault` an error of the
        message query. */
    function GetLastMessages(businessId: string, userId: string, lookupFault: Option<string>,
                             queryFault: Option<string>): (r: Result<seq<Message>>)
      reads this
      ensures lookupFault.Some? ==> r == Err(lookupFault.value)
      ensures lookupFault.None? && FindChat(chats, businessId, userId).None? ==> r == Ok([])
      ensures lookupFault.None? && FindChat(chats, businessId, userId).Some? ==>
                r == if queryFault.Some? then Err(queryFault.value)
                     else Ok(LastMessagesOf(MessagesOf(messages, FindChat(chats, businessId, userId).value.id)))
      ensures r.Ok? ==> |r.value| <= HistoryLimit
      ensures r.Ok? && r.value != [] ==>
                FindChat(chats, businessId, userId).Some?
                && forall m :: m in r.value ==> m in messages && m.chatId == FindChat(chats, businessId, userId).value.id
    {
      if lookupFault.Some? then Err(lookupFault.value)
      else match FindChat(chats, businessId, userId)
        case None => Ok([])
        case Some(chat) =>
          if queryFault.Some? then Err(queryFault.value)
          else
            var mine := MessagesOf(messages, chat.id);
            LastMessagesAreMostRecent(mine);
            assert forall m :: m in LastMessagesOf(mine) ==> m in mine;
            Ok(LastMessagesOf(mine))
    }

    /** `addMessage(businessId, userId, text, isUser = true)`: find the chat
        for the key, create it only when the lookup finds no row, then
        insert one message into it. A failed chat insert stops before the
        message; a failed message insert leaves a chat it created in place. */
    method AddMessage(businessId: string, userId: string, text: string, isUser: Option<bool>,
                      lookupFault: Option<string>, createFault: Option<string>, insertFault: Option<string>)
      returns (r: Result<Message>)
      requires Valid()
      modifies this
      ensures Valid()
      ensures tickets == old(tickets)
      ensures lookupFault.Some? ==> r == Err(lookupFault.value) && chats == old(chats) && messages == old(messages)
      ensures lookupFault.None? && FindChat(old(chats), businessId, userId).Some? ==> chats == old(chats)
      ensures lookupFault.None? && FindChat(old(chats), businessId, userId).None? ==>
                if createFault.Some? then r == Err(createFault.value) && chats == old(chats)
                else chats == old(chats) + [Chat(old(nextRowId), businessId, userId)]
      ensures r.Ok? <==> lookupFault.None? && insertFault.None?
                         && (FindChat(old(chats), businessId, userId).None? ==> createFault.None?)
      ensures r.Err? ==> messages == old(messages)
      ensures r.Ok? ==> messages == old(messages) + [r.value]
      ensures r.Ok? ==> r.value.text == Some(text) && r.value.isUser == isUser.GetOr(true)
                        && r.value.imageUrl.None? && r.value.imageDescription.None?
      ensures r.Ok? ==> FindChat(chats, businessId, userId).Some?
                        && FindChat(chats, businessId, userId).value.id == r.value.chatId
      ensures r.Ok? ==> |MessagesOf(messages, r.value.chatId)| == |MessagesOf(old(messages), r.value.chatId)| + 1
    {
      var chat := FindOrCreateChat(businessId, userId, lookupFault, createFault);
      if chat.Err? {
        return Err(chat.error);
      }
      r := InsertMessage(chat.value, text, isUser.GetOr(true), insertFault);
    }

    /** The chat lookup of `addMessage`: the chat for the key, or a new one
        when the lookup finds no row. */
    method FindOrCreateChat(businessId: string, userId: string, lookupFault: Option<string>,
                            createFault: Option<string>) returns (r: Result<Chat>)
      requires Valid()
      modifies this
      ensures Valid()
      ensures tickets == old(tickets) && messages == old(messages) && clock == old(clock)
      ensures lookupFault.Some? ==> r == Err(lookupFault.value) && chats == old(chats)
      ensures lookupFault.None? && FindChat(old(chats), businessId, userId).Some? ==>
                r == Ok(FindChat(old(chats), businessId, userId).value) && chats == old(chats)
      ensures lookupFault.None? && FindChat(old(chats), businessId, userId).None? ==>
                if createFault.Some? then r == Err(createFault.value) && chats == old(chats)
                else r == Ok(Chat(old(nextRowId), businessId, userId)) && chats == old(chats) + [r.value]
      ensures r.Ok? ==> FindChat(chats, businessId, userId) == Some(r.value) && r.value in chats
    {
      if lookupFault.Some? {
        return Err(lookupFault.value);
      }
      match FindChat(chats, businessId, userId) {
        case Some(c) =>
          r := Ok(c);
        case None =>
          if createFault.Some? {
            return Err(createFault.value);
          }
          var chat := Chat(nextRowId, businessId, userId);
          FindChatAppended(chats, chat);
          AppendChatKeepsUnique(chats, chat);
          chats := chats + [chat];
          nextRowId := nextRowId + 1;
          r := Ok(chat);
      }
    }

    /** The message insert of `addMessage`: one message in the given chat,
        stamped with the clock. */
    method InsertMessage(chat: Chat, text: string, isUser: bool, insertFault: Option<string>)
      returns (r: Result<Message>)
      requires Valid() && chat in chats
      modifies this
      ensures Valid()
      ensures tickets == old(tickets) && chats == old(chats)
      ensures insertFault.Some? ==> r == Err(insertFault.value) && messages == old(messages)
      ensures insertFault.None? ==>
                r == Ok(Message(old(nextRowId), chat.id, Some(text), None, None, isUser, old(clock)))
                && messages == old(messages) + [r.value]
      ensures r.Ok? ==> |MessagesOf(messages, chat.id)| == |MessagesOf(old(messages), chat.id)| + 1
    {
      if insertFault.Some? {
        return Err(insertFault.value);
      }
      var m := Message(nextRowId, chat.id, Some(text), None, None, isUser, clock);
      MessagesOfAppend(messages, m, chat.id);
      AppendKeepsAscending(messages, m, MessageCreatedAt);
      messages := messages + [m];
      clock := clock + 1;
      nextRowId := nextRowId + 1;
      r := Ok(m);
    }
  }

  /** What `getLastMessages` returns for an existing chat is that chat's
      most recent messages (at most 10), in chronological order. */
  lemma {:induction false} LastMessagesChronological(store: Store, businessId: string, userId: string,
                                                     lookupFault: Option<string>, queryFault: Option<string>)
    requires store.Valid()
    requires store.GetLastMessages(businessId, userId, lookupFault, queryFault).Ok?
    requires FindChat(store.chats, businessId, userId).Some?
    ensures var mine := MessagesOf(store.messages, FindChat(store.chats, businessId, userId).value.id);
            store.GetLastMessages(businessId, userId, lookupFault, queryFault).value
              == mine[|mine| - Min(|mine|, HistoryLimit)..]
    ensures Ascending(store.GetLastMessages(businessId, userId, lookupFault, queryFault).value, MessageCreatedAt)
  {
    var chat := FindChat(store.chats, businessId, userId).value;
    var mine := MessagesOf(store.messages, chat.id);
    assert store.GetLastMessages(businessId, userId, lookupFault, queryFault).value == LastMessagesOf(mine);
    LastMessagesAreMostRecent(mine);
    FilterAscending(store.messages, (m: Message) => m.chatId == chat.id, MessageCreatedAt);
    SuffixAscending(mine, |mine| - Min(|mine|, HistoryLimit), MessageCreatedAt);
  }
}
