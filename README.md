# WhatsApp maintenance assistant: the decision core in Dafny

This project models the deterministic core of a WhatsApp maintenance assistant for hotel housekeeping.

A housekeeper sends a text or voice message to a WhatsApp Business number. The assistant turns it into a task text and hands it to a tool-using agent. The agent records the job as a ticket and answers the housekeeper. The core modelled here is everything around the network, LLM and file calls:

- **The store** (`utils/database.js`): tickets, chats and messages kept as sequences inside a `Database.Store` object.
  - `createTicket`, `closeTicket`, `updateTicketLatest` and `addMessage` are methods that change it.
  - `getOpenTickets` and `getLastMessages` are read-only queries over it.
  - `created_at` is an abstract counter that every insert reads and advances.
  - The store's invariant `Valid` keeps ticket ids, chat ids and chat keys unique, and keeps the ticket and message tables in ascending `created_at` order. Chats carry no creation time.
- **The agent tools** `update_ticket`, `create_ticket`, `get_open_tickets` and `get_person`: what each does to the store, and the result envelope it hands back to the agent.
- **The webhook helpers**:
  - validation of a delivery and extraction of the sender;
  - projection of stored messages into agent turns, with the literal image placeholders;
  - the send-then-store reply sequence;
  - the file name and caption rule for downloaded images.
- **The dispatch loop** `processWhatsAppMessage`, a method with a loop over the delivered messages:
  - text gives its body;
  - audio gives its transcript, or the marker `[Audio transcription failed]`;
  - every other type is skipped;
  - the agent runs once per handled message;
  - its answer, or a fixed apology when it fails, is sent back to the sender.
- **The agent call** `runAgent`: the conversation is the history followed by one user turn.
- **Audio handling**: extraction of the audio fields, the MIME type to file extension rule, and the parameter guards of the transcription pipeline.
- **The outbound send** `sendWhatsAppText`: four guards, then an image body or a text body.

Everything outside the process is an argument, so each operation is a total function of its inputs:

- transcription, the agent runtime, the HTTP transport and the clock are oracles indexed by message position;
- a store failure is an optional error message (`fault`);
- the directory file's contents are a `Result`.

Behaviour worth knowing:

- **Reply storage:** `sendAndStoreResponse` stores the reply only after the send succeeded. A failed send stores nothing.
- **Images:** the dispatch loop skips every message that is neither text nor audio, images with captions included.
- **History in the loop:** the dispatch loop neither loads nor stores history. It calls the agent with no messages.
- **History limit:** `getConversationHistory` passes a message count, but `getLastMessages` ignores it and always reads at most 10 messages.
- **Missing ticket:** closing or updating a ticket id that no row has is reported by the store as a success with no row.
- **Missing text object:** a text message without its text object throws inside the loop. The outer handler catches it, so the messages after it are never processed.

## Model

| member | source | states |
|---|---|---|
| Database.Store.constructor | utils/database.js:6-9 | The store starts with three empty tables and satisfies its invariant. |
| Database.Store.CreateTicket | utils/database.js:18-43 | On success exactly one ticket is appended: open, `latest` defaulting to the empty string, stamped with the clock. No other row of any table changes. A store error changes nothing and carries its message. |
| Database.Store.GetOpenTickets | utils/database.js:50-68 | A store error is passed through. Otherwise the result holds exactly the tickets with `is_open` true. |
| Database.OpenTicketsOf | utils/database.js:52-56 | The open-ticket query keeps exactly the open rows of the table. |
| Database.OpenTicketsNewestFirst | utils/database.js:52-56 | On a table in ascending creation order, the open tickets come out in strictly descending `created_at`. |
| Database.CreatedTicketListedFirst | utils/database.js:52-56 | A newly inserted open ticket is listed first by the open-ticket query, followed by the previously open tickets in their old order. |
| Database.ApplyUpdate | agent/tools/update_ticket.js:41-45 | After `update(data)` a row holds every value the update object assigns. Every column it does not name keeps its old value, and the id and creation time never change. |
| Database.UpdateRows | agent/tools/update_ticket.js:41-45 | `update(data).eq('id', id)` rewrites exactly the rows with that id. Every other row is unchanged, and the table keeps its length and each row's id and creation time. |
| Database.UpdateRowsKeepsKeys | agent/tools/update_ticket.js:41-45 | An update keeps ticket ids unique and the table in ascending creation order, below the clock. |
| Database.FindTicket | utils/database.js:78-82 | Finds a row with the id exactly when one exists, and it has that id. |
| Database.UpdatedRowsSelected | utils/database.js:78-82 | With unique ids, the rows the update selects are the one updated row when the id exists, and none otherwise. |
| Database.UpdateRowsOne | utils/database.js:78-82 | A one-column update object (`{ is_open: false }`, `{ latest }`) changes that column of the matching rows only. |
| Database.Store.UpdateTickets | agent/tools/update_ticket.js:41-54 | A store error changes nothing. Otherwise the table becomes `UpdateRows` of the old one, and the result is the updated row if the id existed or is empty if not. The invariant is kept. |
| Database.Store.CloseTicket | utils/database.js:76-95 | `is_open` becomes false on the row with that id and nothing else changes in any table. The result is that closed row, or no row when the id is unknown (still a success). A store error changes nothing. |
| Database.Store.UpdateTicketLatest | utils/database.js:103-122 | Only `latest` of the row with that id changes. The result is that row, or no row when the id is unknown. A store error changes nothing. |
| Database.FindChat | utils/database.js:140-145 | The chat lookup by (`business_id`, `user_id`) finds a chat with that key exactly when one exists. |
| Database.Store.GetLastMessages | utils/database.js:137-180 | A lookup error is passed through, and an unknown key gives success with an empty list. For an existing chat, a message-query error is passed through, and otherwise the result is the newest 10 of that chat's messages, reversed. A successful result holds at most 10 messages, all of them messages of the key's chat. |
| Database.LastMessagesOf | utils/database.js:162-175 | Taking the newest 10 and reversing yields min(n, 10) messages. |
| Database.LastMessagesAreMostRecent | utils/database.js:162-175 | Newest 10 then reverse is exactly the last min(n, 10) messages of the chat, in their original order. |
| Database.LastMessagesChronological | utils/database.js:137-175 | For an existing chat, `getLastMessages` returns that chat's most recent messages (at most 10), oldest first, in strictly ascending `created_at`. |
| Database.FindChatAppended | utils/database.js:200-218 | Once the chat is created for a key that had none, the lookup finds it. |
| Database.AppendChatKeepsUnique | utils/database.js:200-218 | Creating a chat for a new key with a fresh id keeps chat keys and chat ids unique. |
| Database.MessagesOfAppend | utils/database.js:225-235 | Inserting a message adds it to its own chat's messages and to no other chat's. |
| Database.Store.FindOrCreateChat | utils/database.js:193-222 | A lookup error is returned and nothing changes. An existing chat is returned unchanged. A chat is created only when the lookup finds no row, and a create error stops with nothing created. On success exactly one chat has the key and it is the one returned. |
| Database.Store.InsertMessage | utils/database.js:225-243 | An insert error changes nothing. Otherwise exactly one message is appended, with the given text and `is_user`, no image and the clock's time, and its chat's message count grows by one. |
| Database.Store.AddMessage | utils/database.js:190-248 | Covers every error path: a lookup error, a create error when the chat is missing, an insert error. `Ok` exactly when none occurs. On success one message with the given text and `is_user` (default true) is appended, the key's chat exists and holds it, and that chat's message count grows by one. Tickets never change. |
| UpdateTicketTool.BuildUpdateData | agent/tools/update_ticket.js:26-30 | The field-by-field build yields the update object of the present arguments. It is empty exactly when all four are null or missing, so `false` and `""` count as supplied. |
| UpdateTicketTool.UpdateDataExact | agent/tools/update_ticket.js:26-30 | The update object holds exactly the pairs whose argument is present, with that argument's value. |
| UpdateTicketTool.UpdateDataColumns | agent/tools/update_ticket.js:26-30 | The update object names exactly the supplied columns, in the order the arguments are checked. |
| UpdateTicketTool.UpdateDataDistinct | agent/tools/update_ticket.js:26-30 | No column appears twice in the update object. |
| UpdateTicketTool.UpdateDataDescription | agent/tools/update_ticket.js:27 | After the update, `description` holds the argument when supplied and its old value otherwise. |
| UpdateTicketTool.UpdateDataOpenedBy | agent/tools/update_ticket.js:28 | The same for `opened_by_phone_number`. |
| UpdateTicketTool.UpdateDataLatest | agent/tools/update_ticket.js:29 | The same for `latest`. |
| UpdateTicketTool.UpdateDataIsOpen | agent/tools/update_ticket.js:30 | The same for `is_open`, including `false`. |
| UpdateTicketTool.UpdateDataApplies | agent/tools/update_ticket.js:41-45 | Applying the built update object to any row writes exactly the supplied arguments over it. |
| UpdateTicketTool.Execute | agent/tools/update_ticket.js:15-85 | Error paths: nothing supplied gives "No fields provided to update" with no write; a returned error or an exception gives `success: false` with the message and its prefix, and no write; an unknown id gives "Ticket not found" with no change. Success: only the supplied fields of the matching row change, and the result carries the updated row, the supplied field names in order and the joined message. Chats and messages never change. |
| CreateTicketTool.Envelope | agent/tools/create_ticket.js:22-36 | Store success becomes `success: true` with the row and "Ticket created successfully with ID: <id>". Store failure becomes `success: false` with the same error and the "Failed to create ticket: " message. |
| CreateTicketTool.StoreAnswer | agent/tools/create_ticket.js:22-36 | Reads the store answer back from an envelope; success corresponds to success. |
| CreateTicketTool.EnvelopeKeepsAnswer | agent/tools/create_ticket.js:22-36 | Round trip: the envelope loses nothing of the store's answer. |
| CreateTicketTool.Execute | agent/tools/create_ticket.js:13-37 | The three arguments reach `createTicket` in order. On success the envelope carries the new open ticket and its id, and the ticket heads the open-ticket list. On failure the table is unchanged and the error is reported. |
| GetOpenTicketsTool.Envelope | agent/tools/get_open_tickets.js:13-28 | Success passes the tickets unchanged. Failure gives no tickets and the store's error. In both branches `count` is the number of tickets. |
| GetOpenTicketsTool.Execute | agent/tools/get_open_tickets.js:9-29 | Without a store error the result is exactly the open tickets, newest first. With one, it is an empty list, count 0 and the error. Count always equals length, and the store is only read. |
| GetPersonTool.GetPerson | agent/tools/get_person.js:25-39 | An unreadable directory gives nobody. Otherwise exactly the entries whose type is the requested profession. |
| GetPersonTool.GetPersonKeepsOrder | agent/tools/get_person.js:32 | The matches keep their directory order: filtering a split directory filters each part. |
| GetPersonTool.Execute | agent/tools/get_person.js:17-22 | `{ people }` holds exactly the entries of the requested type, for one of the five professions of the argument schema. |
| WebhookHelpers.ValidateWebhookEntry | webhook/webhook-helpers.js:11-28 | Null unless `entry` is an array whose first element has `changes`, whose first change has a `value`, and whose `value.messages` is an array. Otherwise those messages, the contacts (default empty) and the metadata. |
| WebhookHelpers.ExtractSenderInfo | webhook/webhook-helpers.js:36-47 | The phone is `from`. Only the first contact is consulted: `waId` falls back to `from` and the name to "Unknown". |
| WebhookHelpers.ImagePlaceholder | webhook/webhook-helpers.js:67-70 | The bracketed placeholder contains the image URL, and the description when one is present. |
| WebhookHelpers.TurnText | webhook/webhook-helpers.js:64-76 | Without an image URL, the stored text (empty when missing). With one, the text, one space and the placeholder, or the placeholder alone when the text is empty. The URL always occurs in it. |
| WebhookHelpers.ToTurn | webhook/webhook-helpers.js:78-87 | A user message becomes a `user` turn with `input_text`, any other an `assistant` turn with `output_text`. Either way one content item carrying the turn text, and the message's creation time. |
| WebhookHelpers.FormatHistory | webhook/webhook-helpers.js:62-88 | One turn per message, in the same order. |
| WebhookHelpers.FormatHistoryChronological | webhook/webhook-helpers.js:62-88 | Messages in ascending creation order give turns in ascending timestamp order. |
| WebhookHelpers.ConversationHistory | webhook/webhook-helpers.js:57-93 | A failed fetch gives an empty history; otherwise the formatted messages. Never more than 10 turns. |
| WebhookHelpers.ConversationHistoryIsRecentTail | webhook/webhook-helpers.js:57-58 | Whatever `messages_number` is, the history is the chat's last (at most 10) messages as turns, in chronological order. |
| WebhookHelpers.ReplyRequest | webhook/webhook-helpers.js:105-109 | The reply goes to the sender's phone with the response text, through `WHATSAPP_HK_PHONE_NUMBER_ID`, with no image. |
| WebhookHelpers.SendAndStoreResponse | webhook/webhook-helpers.js:103-123 | Returns true exactly when the send succeeds. A failed send stores nothing. After a successful send at most one message is appended: the reply as an assistant message of the sender's chat. It is appended whenever no store error occurs, and a storing failure still returns true. The only chat that can be added is the one for the sender's key. Tickets never change. |
| WebhookHelpers.HandleAgentError | webhook/webhook-helpers.js:132-137 | The fixed apology is sent to the sender through `sendAndStoreResponse`, whose boolean is discarded. A failed send stores nothing. After a successful send the apology is appended as an assistant message of the sender's chat whenever no store error occurs. At most that message and the sender's chat are added. Tickets never change. |
| WebhookHelpers.Decimal | webhook/webhook-helpers.js:181-183 | A number printed in a template literal is a non-empty string of decimal digits that spells that number (`DigitsValue`), with no leading zero unless the number is 0. |
| WebhookHelpers.ImageExtension | webhook/webhook-helpers.js:182 | The extension is never empty and never contains a slash. |
| WebhookHelpers.ImageExtensionOfMimeType | webhook/webhook-helpers.js:182 | The extension is the text between the first and the second slash, or "jpg" when that is empty. So `type/subtype` gives the subtype, `a/b/c` gives `b`, and a MIME type without a slash gives "jpg". |
| WebhookHelpers.DownloadWhatsAppImage | webhook/webhook-helpers.js:145-203 | Errors are rethrown in the order the steps run: a fetch error, a directory-creation error, a missing MIME type failing on `split`, then a file-write error. Otherwise the file is `image_<id>_<now>.<extension>` in the download directory, and the caption is the message's caption trimmed: empty when missing, otherwise neither starting nor ending with whitespace. |
| Agent.Conversation | agent/agent.js:35-49 | The conversation is every history turn in order followed by exactly one user turn with a single `input_text` item equal to the input. Its length is the history's plus one. |
| Agent.RunAgent | agent/agent.js:29-69 | The runtime is called once, on the conversation built from the input and the history (empty when none is given), and its outcome, result or error, is returned unchanged. |
| Agent.RunAgentWithoutHistory | agent/agent.js:29-52 | With `messages` defaulted, the runtime sees a single user turn, and its outcome (result or error) comes back unchanged. |
| SendMessage.BuildPost | wapp/send_message.js:15-54 | Guards in order, each with its own message: access token, `phone_number_id`, `to`, then text or image ("Either \"text\" or \"image_url\" is required"). With `image_url`: an `image` body linking it, with a caption exactly when `text` is truthy. Otherwise a `text` body with that text. Always `whatsapp` and the given `to`, posted to the phone number's `/messages` URL. |
| SendMessage.SendWhatsAppText | wapp/send_message.js:15-74 | A guard failure is thrown before any post. A transport failure is rethrown with the "Failed to send WhatsApp message: " prefix. Otherwise the response comes back. |
| SendMessage.NoPhoneNumberIdNeverPosts | wapp/send_message.js:18-23 | Without a phone number id the send fails at a guard, whatever the transport would do. |
| Transcribe.ExtractAudioMediaInfo | utils/transcribe.js:135-147 | Null unless the type is audio and an audio object is present. Otherwise id, MIME type, sha256 and size are copied, and `voice` defaults to false. |
| Transcribe.FileExtension | utils/transcribe.js:76-79 | ".mp3" exactly when the MIME type contains "mpeg"; otherwise ".wav" for "wav", then ".m4a" for "m4a", else ".ogg", checked in that order. |
| Transcribe.DownloadAndTranscribe | utils/transcribe.js:21-36 | Checks the media id, access token, phone number id and OpenAI key in that order, before any I/O. Past the guards the outcome is the pipeline's. |
| Transcribe.ProcessWhatsAppAudioMessage | utils/transcribe.js:155-170 | A non-audio message is refused with "Message is not an audio message". Otherwise the media id and the config fields go unchanged to the transcription step. |
| ProcessMessage.Messages | webhook/process_message.js:11-20 | The loop runs over nothing when validation fails, and over the validated messages otherwise. |
| ProcessMessage.AudioConfig | webhook/process_message.js:38-43 | The transcriber gets the access token, the phone number id, `./audio-downloads` and no language. |
| ProcessMessage.TaskOf | webhook/process_message.js:24-57 | Text gives its body. Audio gives its transcript, or the failure marker for any failure. Any other type is skipped. A text message without a text object ends the run. |
| ProcessMessage.AgentInput | webhook/process_message.js:65 | The agent input starts with "Housekeeper phone number: ". |
| ProcessMessage.AgentInputMentions | webhook/process_message.js:65 | The agent input contains the sender's phone number and the message text. |
| ProcessMessage.Reply | webhook/process_message.js:66-93 | After a completed run, one send of `finalOutput` exactly when it is truthy. After a failed run, one send of the apology. Every send goes to the sender with the loop's phone number id and no image, and its outcome is that of `sendWhatsAppText`. |
| ProcessMessage.StepAtShape | webhook/process_message.js:23-93 | An iteration stops the run exactly when reading the text throws, and does nothing for a skipped type. Otherwise it runs the agent once on a one-turn conversation holding the agent input, then replies with that run's outcome. |
| ProcessMessage.Dispatch | webhook/process_message.js:11-18 | A delivery that fails the entry guards produces no actions. |
| ProcessMessage.Iterate | webhook/process_message.js:24-93 | The loop body computes exactly the iteration that `StepAt` describes. |
| ProcessMessage.DispatchLoop | webhook/process_message.js:23-95 | The messages are processed in array order, one iteration each, until one stops the run. |
| ProcessMessage.ProcessMessages | webhook/process_message.js:9-98 | The guards, then the loop: the actions are exactly `Dispatch` of the delivery. |
| ProcessMessage.AbortDropsTheRest | webhook/process_message.js:30-32 | A text message without a text object ends the run: the actions are those of the messages before it. |
| ProcessMessage.StepRunsOnce | webhook/process_message.js:30-67 | An iteration that does not stop the run goes on and runs the agent once for text or audio, and never for any other type. |
| ProcessMessage.OneRunPerHandledMessage | webhook/process_message.js:23-93 | When no message stops the run, the agent runs exactly as many times as there are text and audio messages, a failed run included. |
| ProcessMessage.HistoryNeverReachesAgent | webhook/process_message.js:67 | Every conversation the loop hands the agent is one user turn holding an agent input: no history ever reaches it. |
| ProcessMessage.ProcessWhatsAppMessage | webhook/process_message.js:72-89 | As written, the loop sends with no phone number id, and every send it attempts fails at a guard. |
| ProcessMessage.AsWrittenRepliesNeverSent | webhook/process_message.js:72-89 | Without a phone number id, every reply and apology fails before the post, whatever the transport does. |
| ProcessMessage.ProcessWhatsAppMessageCorrected | webhook/process_message.js:72-89 | Sending through the housekeeping number, every reply to a non-empty sender passes every guard when the id and the access token are set. |
| ProcessMessage.CorrectedRepliesReachTransport | webhook/process_message.js:72-89 | With a phone number id and an access token, every reply to a non-empty sender either succeeds or fails in the transport, never at a guard. |
| Common.Filter | agent/tools/get_person.js:32 | `filter` keeps exactly the elements satisfying the predicate. |
| Common.Reverse | utils/database.js:175 | `reverse` puts element i at position n-1-i, with the same elements. |
| Common.Includes | utils/transcribe.js:77-79 | `includes` is true exactly when the substring occurs at some position. |
| Common.Trim | webhook/webhook-helpers.js:193 | `trim` gives a middle slice with whitespace cut from both ends. It neither starts nor ends with whitespace. |
| Common.TrimIdempotent | webhook/webhook-helpers.js:193 | Trimming a trimmed caption changes nothing. |
| Common.JoinAppend | agent/tools/update_ticket.js:74 | `join(', ')` of one more field name is the previous join, the separator and that name. |
| Common.Split | webhook/webhook-helpers.js:182 | `split` on one character gives at least one piece, no piece contains the separator, and joining the pieces gives back the string. |

## Left out

- Network, file and process effects are not modelled. Their outcomes are oracle arguments:
  - the Supabase client;
  - the axios and fetch calls;
  - the OpenAI Whisper and agent runs;
  - writing and deleting the audio and image files;
  - `process.env`.
- Logging (`console.*`) is not modelled.
- `index.js` is not part of this model: the Express routes, the verify-token handshake, status codes and the `setImmediate` deferral. It also passes an agent object as a fourth argument that `runAgent` ignores.
- Also not part of this model: `agent/hkAgent.js`, `prompts/prompt.js`, `utils/prompt.js`, `utils/translate.js` and the `send_message_specialist` tool stub. They hold configuration, prompt reads, one LLM call and a constant echo.
- Store-service specifics are reduced to what the core reacts to:
  - a chat lookup reports "no row" or another error;
  - `created_at` is an increasing counter rather than a date.
- Database.Store.CreateTicket: the database's generated UUID is a caller-supplied `newId`, and the requirement that it is fresh stands for the database's uniqueness guarantee.
- Concurrency is not modelled: two deliveries creating the same chat at once, timeouts and cancellation.
- Transcribe.DownloadAndTranscribe: past the guards, the media lookup, download, the `./downloads` default directory, the optional `language` parameter and the Whisper call are one oracle outcome.
- WebhookHelpers.DownloadWhatsAppImage: the two fetches are one oracle outcome, and the directory creation and the file write are one oracle outcome each; the bytes written are not modelled. The image's `caption` is missing or a string; a `null` caption, on which `trim` would throw, is not distinguished from a missing one.
- Common.Trim: knows eight whitespace characters (space, tab, line feed, vertical tab, form feed, carriage return, no-break space, byte-order mark). JavaScript's `trim` also removes the other Unicode space separators and the line and paragraph separators.
- Agent.RunAgent: the runtime's tool calls into the store are not connected to the run's outcome. The runtime is an oracle from conversations to outcomes.
- The `substring` truncation in the `create_ticket` log line and the log-only fields of the agent run (usage, duration) are not modelled.

## Findings

| source | as written | input that shows it | evidently intended | confidence | as-written member | corrected member |
|---|---|---|---|---|---|---|
| webhook/process_message.js:72-89 | The reply and the apology are sent without a `phone_number_id`, so `sendWhatsAppText` always throws at its phone-number guard (wapp/send_message.js:21-23). The catch then swallows the error, so no reply ever reaches the housekeeper. | Any text message, with `WHATSAPP_ACCESS_TOKEN` set, whose agent run completes with a non-empty `finalOutput` (or fails). | Send through the housekeeping number, as `sendAndStoreResponse` does (webhook/webhook-helpers.js:108), so replies reach the transport. | high; not executed | ProcessMessage.AsWrittenRepliesNeverSent | ProcessMessage.CorrectedRepliesReachTransport |
