/** The outbound WhatsApp send (`sendWhatsAppText`): four parameter guards,
    then one message body, image or text, posted to the Cloud API. The HTTP
    post itself is an oracle outcome. */
module SendMessage {
  import opened Common

  /** The named parameters of `sendWhatsAppText`. */
  datatype SendRequest = SendRequest(
    to: Option<string>,
    text: Option<string>,
    phoneNumberId: Option<string>,
    imageUrl: Option<string>)

  datatype ImagePart = ImagePart(link: string, caption: Option<string>)
  datatype TextPart = TextPart(body: string)

  /** The JSON `messageBody`; `kind` is its `type` field. */
  datatype MessageBody = MessageBody(
    messagingProduct: string,
    to: string,
    kind: string,
    image: Option<ImagePart>,
    text: Option<TextPart>)

  /** The request `axios.post` would make. */
  datatype Post = Post(url: string, authorization: string, body: MessageBody)

  /** What the HTTP transport did with the post. */
  datatype Transport = Delivered(response: string) | Rejected(apiError: string)

  const AccessTokenMissing := "WHATSAPP_ACCESS_TOKEN is not set"
  const PhoneNumberIdMissing := "WHATSAPP_PHONE_NUMBER_ID is not set"
  const RecipientMissing := "Recipient \"to\" is required"
  const ContentMissing := "Either \"text\" or \"image_url\" is required"
  const SendFailedPrefix := "Failed to send WhatsApp message: "
  const GraphApiBase := "https://graph.facebook.com/v18.0/"

  /** The guards, checked in the source's order, then the body: an image
      body when `image_url` is truthy (with a caption exactly when `text` is
      truthy), otherwise a text body. */
  function BuildPost(req: SendRequest, accessToken: Option<string>): (r: Result<Post>)
    ensures r.Err? <==> !Truthy(accessToken) || !Truthy(req.phoneNumberId) || !Truthy(req.to)
                        || (!Truthy(req.text) && !Truthy(req.imageUrl))
    ensures !Truthy(accessToken) ==> r == Err(AccessTokenMissing)
    ensures Truthy(accessToken) && !Truthy(req.phoneNumberId) ==> r == Err(PhoneNumberIdMissing)
    ensures Truthy(accessToken) && Truthy(req.phoneNumberId) && !Truthy(req.to) ==> r == Err(RecipientMissing)
    ensures Truthy(accessToken) && Truthy(req.phoneNumberId) && Truthy(req.to) && !Truthy(req.text)
            && !Truthy(req.imageUrl)
            ==> r == Err(ContentMissing)
    ensures r.Ok? ==> r.value.url == GraphApiBase + req.phoneNumberId.value + "/messages"
                      && r.value.authorization == "Bearer " + accessToken.value
    ensures r.Ok? ==> r.value.body.messagingProduct == "whatsapp" && r.value.body.to == req.to.value
    ensures r.Ok? ==> (r.value.body.kind == "image" <==> Truthy(req.imageUrl))
    ensures r.Ok? && Truthy(req.imageUrl) ==>
              r.value.body.text.None? && r.value.body.image.Some?
              && r.value.body.image.value.link == req.imageUrl.value
              && (r.value.body.image.value.caption.Some? <==> Truthy(req.text))
              && (Truthy(req.text) ==> r.value.body.image.value.caption == req.text)
    ensures r.Ok? && !Truthy(req.imageUrl) ==>
              r.value.body.kind == "text" && r.value.body.image.None?
              && r.value.body.text == Some(TextPart(req.text.value))
  {
    if !Truthy(accessToken) then Err(AccessTokenMissing)
    else if !Truthy(req.phoneNumberId) then Err(PhoneNumberIdMissing)
    else if !Truthy(req.to) then Err(RecipientMissing)
    else if !Truthy(req.text) && !Truthy(req.imageUrl) then Err(ContentMissing)
    else
      var body :=
        if Truthy(req.imageUrl) then
          MessageBody("whatsapp", req.to.value, "image",
                      Some(ImagePart(req.imageUrl.value, if Truthy(req.text) then req.text else None)), None)
        else
          MessageBody("whatsapp", req.to.value, "text", None, Some(TextPart(req.text.value)));
      Ok(Post(GraphApiBase + req.phoneNumberId.value + "/messages", "Bearer " + accessToken.value, body))
  }

  /** `sendWhatsAppText`: a guard failure is thrown before anything is
      posted; a transport failure is rethrown with a fixed prefix; otherwise
      the API's response is returned. */
  function SendWhatsAppText(req: SendRequest, accessToken: Option<string>, transport: Transport): (r: Result<string>)
    ensures BuildPost(req, accessToken).Err? ==> r == Err(BuildPost(req, accessToken).error)
    ensures BuildPost(req, accessToken).Ok? && transport.Rejected? ==> r == Err(SendFailedPrefix + transport.apiError)
    ensures r.Ok? <==> BuildPost(req, accessToken).Ok? && transport.Delivered?
    ensures r.Ok? ==> r.value == transport.response
  {
    match BuildPost(req, accessToken)
    case Err(e) => Err(e)
    case Ok(_) =>
      match transport
      case Delivered(response) => Ok(response)
      case Rejected(apiError) => Err(SendFailedPrefix + apiError)
  }

  /** Without a phone number id the send never reaches the transport: it
      fails at a guard whatever the transport would have done. */
  lemma NoPhoneNumberIdNeverPosts(req: SendRequest, accessToken: Option<string>, t1: Transport, t2: Transport)
    requires !Truthy(req.phoneNumberId)
    ensures SendWhatsAppText(req, accessToken, t1) == SendWhatsAppText(req, accessToken, t2)
    ensures SendWhatsAppText(req, accessToken, t1)
            == Err(if Truthy(accessToken) then PhoneNumberIdMissing else AccessTokenMissing)
  {
  }
}
