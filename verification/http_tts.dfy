/** The synchronous synthesis path (`text_to_speech_http`): guard checks in a
    fixed order, one generation request, one audio fetch. The SDK is an input:
    the voice list it returns and the answer it gives to a generation request. */
module HttpTts {
  import opened Common
  import opened Sdk

  /** Pace, pitch and expression of a generation request. */
  datatype Prosody = Prosody(pace: int, pitch: int, expression: int)

  datatype GenerateRequest = GenerateRequest(voiceId: string, text: string, prosody: Prosody)

  /** `generate_take` returns the finished take or raises DaisysTakeGenerateError. */
  datatype GenerateOutcome = Generated(take: Take) | GenerateFailed(message: string)

  datatype HttpApi = HttpApi(voices: seq<Voice>, generate: GenerateRequest -> GenerateOutcome)

  /** A `get_take_audio(take_id, format=...)` call. */
  datatype AudioRequest = AudioRequest(takeId: string, format: string)

  /** The result of one call, with the calls it made to the provider. */
  datatype HttpRun = HttpRun(
    result: Result<Reply>,
    apiOpened: bool,                  // a DaisysAPI session was entered
    request: Option<GenerateRequest>, // generate_take was called
    audio: Option<AudioRequest>)      // get_take_audio was called

  const DefaultProsody := Prosody(0, 0, 5)

  const CredentialsMessage := "DAISYS_EMAIL and DAISYS_PASSWORD environment variables must be set."
  const EmptyTextMessage := "Text for TTS cannot be empty."
  const NoVoicesMessage := "No voices available try to generate a voice with the voice_generate."
  const GenerateErrorPrefix := "Error generating take: "
  const PlayedMessage := "Audio played successfully through."

  /** `text in ["None", "", None]`. */
  predicate IsEmptyText(text: Option<string>)
  {
    text == None || text == Some("") || text == Some("None")
  }

  /** `text_to_speech_http(text, voice_id)`. */
  function TextToSpeechHttp(cfg: Config, text: Option<string>, voiceId: Option<string>, api: HttpApi): (run: HttpRun)
    // Missing credentials are reported before anything else is looked at.
    ensures MissingCredentials(cfg) ==>
      run == HttpRun(Err(DaisysMcpError(CredentialsMessage)), false, None, None)
    // Sentinel text is rejected before the API is opened.
    ensures !MissingCredentials(cfg) && IsEmptyText(text) ==>
      run == HttpRun(Err(DaisysMcpError(EmptyTextMessage)), false, None, None)
    ensures run.apiOpened <==> !MissingCredentials(cfg) && !IsEmptyText(text)
    // Without a voice id and without voices nothing is generated.
    ensures run.apiOpened && !Truthy(voiceId) && api.voices == [] ==>
      run.result == Err(DaisysMcpError(NoVoicesMessage)) && run.request == None
    // Generation is asked for exactly when every check passed, always with the
    // same prosody, the given text and the resolved voice.
    ensures run.request.Some? <==> run.apiOpened && (Truthy(voiceId) || api.voices != [])
    ensures run.request.Some? ==>
      && text.Some? && run.request.value.text == text.value
      && run.request.value.prosody == Prosody(0, 0, 5)
      && run.request.value.voiceId == if Truthy(voiceId) then voiceId.value else api.voices[|api.voices| - 1].voiceId
    // A generation error becomes a RuntimeError carrying its message.
    ensures run.request.Some? && api.generate(run.request.value).GenerateFailed? ==>
      run.result == Err(RuntimeError("Error generating take: " + api.generate(run.request.value).message))
      && run.audio == None
    // Success: the generated take's own audio is fetched as mp3, and the reply is fixed.
    ensures run.result.Ok? <==> run.request.Some? && api.generate(run.request.value).Generated?
    ensures run.result.Ok? ==>
      && run.result.value == MessageReply("Audio played successfully through.")
      && run.audio == Some(AudioRequest(api.generate(run.request.value).take.takeId, "mp3"))
  {
    if MissingCredentials(cfg) then HttpRun(Err(DaisysMcpError(CredentialsMessage)), false, None, None)
    else if IsEmptyText(text) then HttpRun(Err(DaisysMcpError(EmptyTextMessage)), false, None, None)
    else
      match ChooseVoice(voiceId, api.voices)
      case None => HttpRun(Err(DaisysMcpError(NoVoicesMessage)), true, None, None)
      case Some(voice) =>
        var request := GenerateRequest(voice, text.value, DefaultProsody);
        match api.generate(request)
        case GenerateFailed(m) =>
          HttpRun(Err(RuntimeError(GenerateErrorPrefix + m)), true, Some(request), None)
        case Generated(take) =>
          HttpRun(Ok(MessageReply(PlayedMessage)), true, Some(request), Some(AudioRequest(take.takeId, "mp3")))
  }
}
