/** The webhook helpers: structural validation of a delivery, sender
    extraction, projection of stored messages into agent turns, the
    send-then-store reply sequence, and the file name and caption rule for
    downloaded images. */
module WebhookHelpers {
  import opened Common
  import opened Payload
  import opened Database
  import opened Agent
  import opened SendMessage

  /** What `validateWebhookEntry` returns when the delivery is usable. */
  datatype ValidatedEntry = ValidatedEntry(
    messages: seq<InboundMessage>,
    contacts: seq<Contact>,
    metadata: Option<Metadata>)

  /** `validateWebhookEntry`: null unless `entry` is an array whose first
      element has `changes`, whose first change has a `value`, and whose
      `value.messages` is an array (possibly empty); then those messages,
      the contacts (an empty list when missing) and the metadata. */
  function ValidateWebhookEntry(entry: Entry): (r: Option<ValidatedEntry>)
    ensures !entry.Items? || entry.items == [] || entry.items[0].changes.Absent? ==> r.None?
    ensures r.Some? <==>
              entry.First().Some? && entry.First().value.changes.First().Some?
              && entry.First().value.changes.First().value.value.Some?
              && entry.First().value.changes.First().value.value.value.messages.Items?
    ensures r.Some? ==>
              var v := entry.items[0].changes.items[0].value.value;
              r.value.messages == v.messages.items
              && r.value.contacts == v.contacts.GetOr([])
              && r.value.metadata == v.metadata
  {
    match entry.First()
    case None => None
    case Some(item) =>
      match item.changes.First()
      case None => None
      case Some(change) =>
        match change.value
        case None => None
        case Some(v) =>
          if !v.messages.Items? then None
          else Some(ValidatedEntry(v.messages.items, v.contacts.GetOr([]), v.metadata))
  }

  /** What `extractSenderInfo` returns. */
  datatype SenderInfo = SenderInfo(phone: string, waId: string, name: string)

  const UnknownName := "Unknown"

  /** `extractSenderInfo`: only the first contact is consulted; its
      `wa_id` falls back to the message's `from`, its profile name to
      "Unknown". */
  function ExtractSenderInfo(message: InboundMessage, contacts: seq<Contact>): (r: SenderInfo)
    ensures r.phone == message.from
    ensures |contacts| > 0 && Truthy(contacts[0].waId) ==> r.waId == contacts[0].waId.value
    ensures |contacts| == 0 || !Truthy(contacts[0].waId) ==> r.waId == message.from
    ensures |contacts| > 0 && contacts[0].profile.Some? && Truthy(contacts[0].profile.value.name) ==>
              r.name == contacts[0].profile.value.name.value
    ensures |contacts| == 0 || contacts[0].profile.None? || !Truthy(contacts[0].profile.value.name) ==>
              r.name == UnknownName
  {
    if |contacts| == 0 then SenderInfo(message.from, message.from, UnknownName)
    else
      var c := contacts[0];
      var waId := if Truthy(c.waId) then c.waId.value else message.from;
      var name := if c.profile.Some? && Truthy(c.profile.value.name) then c.profile.value.name.value else UnknownName;
      SenderInfo(message.from, waId, name)
  }

  /** The literal placeholder for a stored image. */
  function ImagePlaceholder(url: string, description: Option<string>): (r: string)
    ensures Includes(r, url)
    ensures Truthy(description) ==> Includes(r, description.value)
    ensures |r| > 0 && r[0] == '[' && r[|r| - 1] == ']'
  {
    if Truthy(description) then
      var r := "[Image attached with " + description.value + ". Image URL: " + url + "]";
      assert OccursAt(r, description.value, 21) by {
        assert r[21..21 + |description.value|] == description.value;
      }
      var k := 21 + |description.value| + 13;
      assert OccursAt(r, url, k) by {
        assert r[k..k + |url|] == url;
      }
      r
    else
      var r := "[Image attached. Image URL: " + url + "]";
      assert OccursAt(r, url, 28) by {
        assert r[28..28 + |url|] == url;
      }
      r
  }

  /** The text of a history turn: the stored text (empty when missing) and,
      when the message has an image URL, the placeholder after one space, or
      the placeholder alone when the text is empty. */
  function TurnText(m: Message): (r: string)
    ensures !Truthy(m.imageUrl) ==> r == m.text.GetOr("")
    ensures Truthy(m.imageUrl) && Truthy(m.text) ==>
              r == m.text.value + " " + ImagePlaceholder(m.imageUrl.value, m.imageDescription)
    ensures Truthy(m.imageUrl) && !Truthy(m.text) ==> r == ImagePlaceholder(m.imageUrl.value, m.imageDescription)
    ensures Truthy(m.imageUrl) ==> Includes(r, m.imageUrl.value)
  {
    var text := m.text.GetOr("");
    if !Truthy(m.imageUrl) then text
    else
      var placeholder := ImagePlaceholder(m.imageUrl.value, m.imageDescription);
      if text == "" then placeholder
      else
        IncludesWithin(text + " ", placeholder, "", m.imageUrl.value);
        assert text + " " + placeholder + "" == text + " " + placeholder;
        text + " " + placeholder
  }

  /** One stored message as an agent turn: a user message becomes a `user`
      turn with `input_text`, any other an `assistant` turn with
      `output_text`, stamped with the message's creation time. */
  function ToTurn(m: Message): (t: Turn)
    ensures t.role == User <==> m.isUser
    ensures |t.content| == 1 && (t.content[0].kind == InputText <==> m.isUser)
    ensures t.content[0].text == TurnText(m) && t.timestamp == m.createdAt
  {
    if m.isUser then Turn(User, [ContentPart(InputText, TurnText(m))], m.createdAt)
    else Turn(Assistant, [ContentPart(OutputText, TurnText(m))], m.createdAt)
  }

  /** The `map` in `getConversationHistory`: one turn per message, in order. */
  function FormatHistory(ms: seq<Message>): (h: seq<Turn>)
    ensures |h| == |ms|
    ensures forall i :: 0 <= i < |ms| ==> h[i] == ToTurn(ms[i])
  {
    seq(|ms|, i requires 0 <= i < |ms| => ToTurn(ms[i]))
  }

  /** Messages in ascending creation order give turns in ascending
      timestamp order. */
  lemma {:induction false} FormatHistoryChronological(ms: seq<Message>)
    requires Ascending(ms, MessageCreatedAt)
    ensures forall i, j :: 0 <= i < j < |ms| ==> FormatHistory(ms)[i].timestamp < FormatHistory(ms)[j].timestamp
  {
    forall i, j | 0 <= i < j < |ms| ensures FormatHistory(ms)[i].timestamp < FormatHistory(ms)[j].timestamp {
      assert MessageCreatedAt(ms[i]) < MessageCreatedAt(ms[j]);
    }
  }

  /** `getConversationHistory(businessId, userId, messages_number)`: the
      chat's last messages as turns, or no turns when the fetch fails.
      `messagesNumber` reaches `getLastMessages`, which ignores it. */
  function ConversationHistory(store: Store, businessId: string, userId: string, messagesNumber: nat,
                               lookupFault: Option<string>, queryFault: Option<string>): (h: seq<Turn>)
    reads store
    ensures |h| <= HistoryLimit
    ensures store.GetLastMessages(businessId, userId, lookupFault, queryFault).Err? ==> h == []
    ensures store.GetLastMessages(businessId, userId, lookupFault, queryFault).Ok? ==>
              h == FormatHistory(store.GetLastMessages(businessId, userId, lookupFault, queryFault).value)
  {
    match store.GetLastMessages(businessId, userId, lookupFault, queryFault)
    case Ok(ms) => FormatHistory(ms)
    case Err(_) => []
  }

  /** Whatever number of messages is asked for, the history holds the
      chat's last (at most 10) messages, as turns in chronological order. */
  lemma {:induction false} ConversationHistoryIsRecentTail(store: Store, businessId: string, userId: string,
                                                           messagesNumber: nat)
    requires store.Valid()
    requires FindChat(store.chats, businessId, userId).Some?
    ensures var mine := MessagesOf(store.messages, FindChat(store.chats, businessId, userId).value.id);
            ConversationHistory(store, businessId, userId, messagesNumber, None, None)
              == FormatHistory(mine[|mine| - Min(|mine|, HistoryLimit)..])
    ensures var h := ConversationHistory(store, businessId, userId, messagesNumber, None, None);
            forall i, j :: 0 <= i < j < |h| ==> h[i].timestamp < h[j].timestamp
  {
    LastMessagesChronological(store, businessId, userId, None, None);
    FormatHistoryChronological(store.GetLastMessages(businessId, userId, None, None).value);
  }

  const Apology := "Sorry, I encountered an error processing your request. Please try again."

  /** The send `sendAndStoreResponse` makes: to the sender's phone, through
      the housekeeping number. */
  function ReplyRequest(env: Env, senderPhone: string, responseText: string): (req: SendRequest)
    ensures req.to == Some(senderPhone) && req.text == Some(responseText) && req.imageUrl.None?
    ensures req.phoneNumberId == env.whatsappHkPhoneNumberId
  {
    SendRequest(Some(senderPhone), Some(responseText), env.whatsappHkPhoneNumberId, None)
  }

  /** `sendAndStoreResponse`: send first; a failed send stores nothing and
      reports false; after a successful send the reply is stored as an
      assistant message of the sender's chat, and true is reported even
      when storing fails. The `*Fault` parameters are the store's answers. */
  method SendAndStoreResponse(store: Store, env: Env, senderPhone: string, senderWaId: string, businessId: string,
                              responseText: string, transport: Transport,
                              lookupFault: Option<string>, createFault: Option<string>, insertFault: Option<string>)
    returns (ok: bool)
    requires store.Valid()
    modifies store
    ensures store.Valid()
    ensures ok <==> SendWhatsAppText(ReplyRequest(env, senderPhone, responseText), env.whatsappAccessToken, transport).Ok?
    ensures store.tickets == old(store.tickets)
    ensures !ok ==> store.chats == old(store.chats) && store.messages == old(store.messages)
    ensures ok ==> store.messages == old(store.messages)
                   || (|store.messages| == |old(store.messages)| + 1
                       && store.messages[..|old(store.messages)|] == old(store.messages)
                       && var m := store.messages[|old(store.messages)|];
                          m.text == Some(responseText) && !m.isUser
                          && FindChat(store.chats, businessId, senderWaId).Some?
                          && FindChat(store.chats, businessId, senderWaId).value.id == m.chatId)
    ensures ok && lookupFault.None? && insertFault.None?
            && (FindChat(old(store.chats), businessId, senderWaId).None? ==> createFault.None?)
            ==> |store.messages| == |old(store.messages)| + 1
    ensures store.chats == old(store.chats)
            || store.chats == old(store.chats) + [Chat(old(store.nextRowId), businessId, senderWaId)]
  {
    var sent := SendWhatsAppText(ReplyRequest(env, senderPhone, responseText), env.whatsappAccessToken, transport);
    if sent.Err? {
      return false;
    }
    var stored := store.AddMessage(businessId, senderWaId, responseText, Some(false), lookupFault, createFault, insertFault);
    if stored.Ok? {
      assert store.messages[..|old(store.messages)|] == old(store.messages);
    }
    ok := true;
  }

  /** Whether the apology's send succeeds. */
  predicate ApologySent(env: Env, senderPhone: string, transport: Transport) {
    SendWhatsAppText(ReplyRequest(env, senderPhone, Apology), env.whatsappAccessToken, transport).Ok?
  }

  /** `handleAgentError`: the fixed apology goes through the same
      send-then-store sequence; what that sequence reports is discarded. */
  method HandleAgentError(store: Store, env: Env, senderPhone: string, senderWaId: string, businessId: string,
                          error: string, transport: Transport,
                          lookupFault: Option<string>, createFault: Option<string>, insertFault: Option<string>)
    requires store.Valid()
    modifies store
    ensures store.Valid()
    ensures store.tickets == old(store.tickets)
    ensures !ApologySent(env, senderPhone, transport) ==>
              store.chats == old(store.chats) && store.messages == old(store.messages)
    ensures ApologySent(env, senderPhone, transport) ==>
              store.messages == old(store.messages)
              || (|store.messages| == |old(store.messages)| + 1
                  && store.messages[..|old(store.messages)|] == old(store.messages)
                  && var m := store.messages[|old(store.messages)|];
                     m.text == Some(Apology) && !m.isUser
                     && FindChat(store.chats, businessId, senderWaId).Some?
                     && FindChat(store.chats, businessId, senderWaId).value.id == m.chatId)
    ensures ApologySent(env, senderPhone, transport) && lookupFault.None? && insertFault.None?
            && (FindChat(old(store.chats), businessId, senderWaId).None? ==> createFault.None?)
            ==> |store.messages| == |old(store.messages)| + 1
    ensures store.chats == old(store.chats)
            || store.chats == old(store.chats) + [Chat(old(store.nextRowId), businessId, senderWaId)]
  {
    var _ := SendAndStoreResponse(store, env, senderPhone, senderWaId, businessId, Apology, transport,
                                  lookupFault, createFault, insertFault);
  }

  /** The number a string of decimal digits spells. */
  function DigitsValue(s: string): nat
    requires forall k :: 0 <= k < |s| ==> '0' <= s[k] <= '9'
  {
    if s == [] then 0 else 10 * DigitsValue(s[..|s| - 1]) + (s[|s| - 1] as int - '0' as int)
  }

  /** The digit for a value below ten. */
  function DigitChar(d: nat): (c: char)
    requires d < 10
    ensures '0' <= c <= '9' && c as int - '0' as int == d
  {
    "0123456789"[d]
  }

  /** The decimal digits of a number, as a template literal prints it. */
  function Decimal(n: nat): (r: string)
    ensures |r| >= 1 && forall k :: 0 <= k < |r| ==> '0' <= r[k] <= '9'
    ensures DigitsValue(r) == n
    ensures r[0] == '0' ==> n == 0
  {
    var d := [DigitChar(n % 10)];
    if n < 10 then d
    else
      var r := Decimal(n / 10) + d;
      assert r[..|r| - 1] == Decimal(n / 10);
      r
  }

  /** `mime_type.split('/')[1] || 'jpg'`. */
  function ImageExtension(mimeType: string): (ext: string)
    ensures ext != "" && '/' !in ext
  {
    var parts := Split(mimeType, '/');
    if |parts| > 1 && parts[1] != "" then parts[1] else "jpg"
  }

  /** The extension is what lies between the first and the second slash
      ("jpg" when that is empty): a `type/subtype` MIME type gives its
      subtype, and one without a slash gives "jpg". */
  lemma {:induction false} ImageExtensionOfMimeType(kind: string, rest: string)
    requires '/' !in kind
    ensures ImageExtension(kind + "/" + rest) == if Split(rest, '/')[0] == "" then "jpg" else Split(rest, '/')[0]
    ensures '/' !in rest ==> ImageExtension(kind + "/" + rest) == if rest == "" then "jpg" else rest
    ensures ImageExtension(kind) == "jpg"
  {
    SplitAtFirst(kind, rest, '/');
    if '/' !in rest {
      SplitWithoutSeparator(rest, '/');
    }
    SplitWithoutSeparator(kind, '/');
  }

  /** The record `downloadWhatsAppImage` returns. */
  datatype ImageDownload = ImageDownload(
    caption: string,
    filepath: string,
    filename: string,
    mediaId: string,
    mimeType: string)

  const ImageDownloadDir := "image-downloads/"
  const MimeTypeUndefined := "Cannot read properties of undefined (reading 'split')"

  /** `downloadWhatsAppImage`: `fetched` is the outcome of the two media
      fetches, `dirFault` that of creating the download directory and
      `writeFault` that of writing the file (each an error message, or
      None); `now` stands for `Date.now()`. Every error is rethrown, in the
      order the steps run: fetches, directory, the MIME type's `split`, the
      write. Otherwise the file is `image_<id>_<now>.<extension>` under the
      download directory and the caption is the trimmed caption (empty when
      missing). */
  function DownloadWhatsAppImage(image: ImageObject, fetched: Option<string>, dirFault: Option<string>,
                                 writeFault: Option<string>, now: nat): (r: Result<ImageDownload>)
    ensures fetched.Some? ==> r == Err(fetched.value)
    ensures fetched.None? && dirFault.Some? ==> r == Err(dirFault.value)
    ensures fetched.None? && dirFault.None? && image.mimeType.None? ==> r == Err(MimeTypeUndefined)
    ensures fetched.None? && dirFault.None? && image.mimeType.Some? && writeFault.Some? ==> r == Err(writeFault.value)
    ensures r.Ok? <==> fetched.None? && dirFault.None? && image.mimeType.Some? && writeFault.None?
    ensures r.Ok? ==>
              r.value.filename == "image_" + image.id + "_" + Decimal(now) + "." + ImageExtension(image.mimeType.value)
              && r.value.filepath == ImageDownloadDir + r.value.filename
              && r.value.mediaId == image.id && r.value.mimeType == image.mimeType.value
    ensures r.Ok? ==> (r.value.caption == [] || (!IsSpace(r.value.caption[0])
                                                 && !IsSpace(r.value.caption[|r.value.caption| - 1])))
    ensures r.Ok? ==> r.value.caption == Trim(image.caption.GetOr(""))
    ensures r.Ok? && image.caption.None? ==> r.value.caption == ""
  {
    if fetched.Some? then Err(fetched.value)
    else if dirFault.Some? then Err(dirFault.value)
    else if image.mimeType.None? then Err(MimeTypeUndefined)
    else if writeFault.Some? then Err(writeFault.value)
    else
      var filename := "image_" + image.id + "_" + Decimal(now) + "." + ImageExtension(image.mimeType.value);
      Ok(ImageDownload(Trim(image.caption.GetOr("")), ImageDownloadDir + filename, filename, image.id,
                       image.mimeType.value))
  }
}
