/** The WhatsApp Cloud API webhook delivery as the assistant reads it, and
    the process environment values the core consults. Only the fields the
    core touches are kept. */
module Payload {
  import opened Common

  /** `process.env`: the values the core reads (None when unset). */
  datatype Env = Env(
    whatsappAccessToken: Option<string>,    // WHATSAPP_ACCESS_TOKEN
    whatsappPhoneNumberId: Option<string>,  // WHATSAPP_PHONE_NUMBER_ID
    whatsappHkPhoneNumberId: Option<string>, // WHATSAPP_HK_PHONE_NUMBER_ID
    openaiApiKey: Option<string>)           // OPENAI_API_KEY

  /** `message.text`: a text message's payload. */
  datatype TextObject = TextObject(body: string)

  /** `message.audio`. */
  datatype AudioObject = AudioObject(
    id: Option<string>,
    mimeType: Option<string>,
    sha256: Option<string>,
    fileSize: Option<nat>,
    voice: Option<bool>)

  /** `message.image`. */
  datatype ImageObject = ImageObject(id: string, caption: Option<string>, mimeType: Option<string>)

  /** One element of `value.messages`; `kind` is the message's `type` field
      ("text", "audio", "image", or anything else). */
  datatype InboundMessage = InboundMessage(
    from: string,
    kind: string,
    text: Option<TextObject>,
    audio: Option<AudioObject>,
    image: Option<ImageObject>)

  datatype Profile = Profile(name: Option<string>)

  /** One element of `value.contacts`. */
  datatype Contact = Contact(waId: Option<string>, profile: Option<Profile>)

  datatype Metadata = Metadata(displayPhoneNumber: Option<string>, phoneNumberId: Option<string>)

  /** `changes[k].value`. */
  datatype ChangeValue = ChangeValue(
    messages: JsList<InboundMessage>,
    contacts: Option<seq<Contact>>,
    metadata: Option<Metadata>)

  /** `entry[k].changes[k']`. */
  datatype Change = Change(value: Option<ChangeValue>)

  /** `entry[k]`. */
  datatype EntryItem = EntryItem(changes: JsList<Change>)

  /** The `entry` field of the delivery body. */
  type Entry = JsList<EntryItem>
}
