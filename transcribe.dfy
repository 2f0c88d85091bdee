/** Audio transcription: picking the audio fields out of a webhook message,
    the parameter guards of the download-and-transcribe pipeline, and the
    MIME type to file extension rule. The media download and the Whisper
    call are one oracle outcome (`io`). */
module Transcribe {
  import opened Common
  import opened Payload

  /** The record `extractAudioMediaInfo` returns. */
  datatype AudioMediaInfo = AudioMediaInfo(
    mediaId: Option<string>,
    mimeType: Option<string>,
    sha256: Option<string>,
    fileSize: Option<nat>,
    voice: bool)

  /** The `config` object callers pass to `processWhatsAppAudioMessage`. */
  datatype TranscribeConfig = TranscribeConfig(
    accessToken: Option<string>,
    phoneNumberId: Option<string>,
    downloadDir: Option<string>,
    language: Option<string>)

  /** The named parameters of `downloadAndTranscribeWhatsAppAudio`. */
  datatype TranscribeParams = TranscribeParams(
    mediaId: Option<string>,
    accessToken: Option<string>,
    phoneNumberId: Option<string>,
    downloadDir: Option<string>,
    language: Option<string>)

  const NotAnAudioMessage := "Message is not an audio message"
  const MediaIdRequired := "mediaId is required"
  const AccessTokenRequired := "accessToken is required"
  const PhoneNumberIdRequired := "phoneNumberId is required"
  const OpenAiKeyRequired := "OPENAI_API_KEY environment variable is required"

  /** `extractAudioMediaInfo`: nothing unless the message is of type audio
      and carries an audio object; then that object's fields, with `voice`
      true only when the message says so. */
  function ExtractAudioMediaInfo(m: InboundMessage): (r: Option<AudioMediaInfo>)
    ensures r.Some? <==> m.kind == "audio" && m.audio.Some?
    ensures r.Some? ==>
              var a := m.audio.value;
              r.value.mediaId == a.id && r.value.mimeType == a.mimeType && r.value.sha256 == a.sha256
              && r.value.fileSize == a.fileSize && (r.value.voice <==> a.voice == Some(true))
  {
    if m.kind != "audio" || m.audio.None? then None
    else
      var a := m.audio.value;
      Some(AudioMediaInfo(a.id, a.mimeType, a.sha256, a.fileSize, a.voice == Some(true)))
  }

  /** The saved file's extension: ".ogg" unless the MIME type mentions
      "mpeg", "wav" or "m4a", checked in that order. */
  method FileExtension(mimeType: string) returns (ext: string)
    ensures ext == ".mp3" <==> Includes(mimeType, "mpeg")
    ensures ext == ".wav" <==> !Includes(mimeType, "mpeg") && Includes(mimeType, "wav")
    ensures ext == ".m4a" <==> !Includes(mimeType, "mpeg") && !Includes(mimeType, "wav") && Includes(mimeType, "m4a")
    ensures ext == ".ogg" <==> !Includes(mimeType, "mpeg") && !Includes(mimeType, "wav") && !Includes(mimeType, "m4a")
  {
    ext := ".ogg";
    if Includes(mimeType, "mpeg") {
      ext := ".mp3";
    } else if Includes(mimeType, "wav") {
      ext := ".wav";
    } else if Includes(mimeType, "m4a") {
      ext := ".m4a";
    }
  }

  /** `downloadAndTranscribeWhatsAppAudio`: the required parameters are
      checked in order (media id, access token, phone number id, then the
      OpenAI key from the environment) before any I/O; past the guards the
      outcome is that of the download and transcription. */
  function DownloadAndTranscribe(p: TranscribeParams, openaiApiKey: Option<string>, io: Result<string>): (r: Result<string>)
    ensures !Truthy(p.mediaId) ==> r == Err(MediaIdRequired)
    ensures Truthy(p.mediaId) && !Truthy(p.accessToken) ==> r == Err(AccessTokenRequired)
    ensures Truthy(p.mediaId) && Truthy(p.accessToken) && !Truthy(p.phoneNumberId) ==> r == Err(PhoneNumberIdRequired)
    ensures Truthy(p.mediaId) && Truthy(p.accessToken) && Truthy(p.phoneNumberId) && !Truthy(openaiApiKey)
            ==> r == Err(OpenAiKeyRequired)
    ensures Truthy(p.mediaId) && Truthy(p.accessToken) && Truthy(p.phoneNumberId) && Truthy(openaiApiKey) ==> r == io
    ensures r != io ==> r.Err? && r.error in {MediaIdRequired, AccessTokenRequired, PhoneNumberIdRequired, OpenAiKeyRequired}
  {
    if !Truthy(p.mediaId) then Err(MediaIdRequired)
    else if !Truthy(p.accessToken) then Err(AccessTokenRequired)
    else if !Truthy(p.phoneNumberId) then Err(PhoneNumberIdRequired)
    else if !Truthy(openaiApiKey) then Err(OpenAiKeyRequired)
    else io
  }

  /** `processWhatsAppAudioMessage`: a message without audio is refused
      with a fixed error; otherwise its media id and the caller's config
      fields go, unchanged, to the download-and-transcribe step. */
  function ProcessWhatsAppAudioMessage(m: InboundMessage, config: TranscribeConfig, openaiApiKey: Option<string>,
                                       io: Result<string>): (r: Result<string>)
    ensures ExtractAudioMediaInfo(m).None? ==> r == Err(NotAnAudioMessage)
    ensures ExtractAudioMediaInfo(m).Some? ==>
              r == DownloadAndTranscribe(
                     TranscribeParams(m.audio.value.id, config.accessToken, config.phoneNumberId,
                                      config.downloadDir, config.language),
                     openaiApiKey, io)
  {
    match ExtractAudioMediaInfo(m)
    case None => Err(NotAnAudioMessage)
    case Some(info) =>
      DownloadAndTranscribe(
        TranscribeParams(info.mediaId, config.accessToken, config.phoneNumberId, config.downloadDir, config.language),
        openaiApiKey, io)
  }
}
