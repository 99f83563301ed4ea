/** The two tools the server implements: `get_voices` (filter, project,
    sort) and `text_to_speech` (normalise the voice id, try the streaming
    path, fall back to the synchronous one on any exception). The
    credentials and the playback flag are read from the environment once,
    so they are a parameter here. */
module Server {
  import opened Common
  import opened Text
  import opened Sdk
  import opened Model
  import opened VoiceSort
  import WebsocketTts
  import HttpTts

  // ---- get_voices ----

  /** The filter of the list comprehension: exact match on each filter given. */
  predicate Matches(v: Voice, model: Option<string>, gender: Option<string>)
  {
    (model.None? || v.model == model.value) && (gender.None? || v.gender == gender.value)
  }

  /** The voices that pass the filters, in their listed order. */
  function FilterVoices(voices: seq<Voice>, model: Option<string>, gender: Option<string>): seq<Voice>
  {
    if voices == [] then []
    else
      var v := voices[|voices| - 1];
      FilterVoices(voices[..|voices| - 1], model, gender) + (if Matches(v, model, gender) then [v] else [])
  }

  /** Each matching voice is kept as often as it is listed, and no other
      voice at all. */
  lemma {:induction false} FilterVoicesCounts(voices: seq<Voice>, model: Option<string>, gender: Option<string>)
    ensures forall v ::
      multiset(FilterVoices(voices, model, gender))[v] == if Matches(v, model, gender) then multiset(voices)[v] else 0
  {
    if voices != [] {
      var init, last := voices[..|voices| - 1], voices[|voices| - 1];
      var kept := if Matches(last, model, gender) then [last] else [];
      assert voices == init + [last];
      assert multiset(voices) == multiset(init) + multiset{last};
      assert multiset(FilterVoices(voices, model, gender)) == multiset(FilterVoices(init, model, gender)) + multiset(kept);
      FilterVoicesCounts(init, model, gender);
    }
  }

  /** The filter keeps the listed order: filtering a list in two parts and
      joining the results gives the filtered whole, so of two kept voices
      the one listed first comes first. */
  lemma {:induction false} FilterVoicesKeepsOrder(a: seq<Voice>, b: seq<Voice>, model: Option<string>, gender: Option<string>)
    ensures FilterVoices(a + b, model, gender) == FilterVoices(a, model, gender) + FilterVoices(b, model, gender)
    decreases |b|
  {
    if b == [] {
      assert a + b == a;
    } else {
      var init, v := b[..|b| - 1], b[|b| - 1];
      var kept := if Matches(v, model, gender) then [v] else [];
      assert (a + b)[..|a + b| - 1] == a + init;
      assert (a + b)[|a + b| - 1] == v;
      FilterVoicesKeepsOrder(a, init, model, gender);
      calc {
        FilterVoices(a + b, model, gender);
        FilterVoices(a + init, model, gender) + kept;
        FilterVoices(a, model, gender) + FilterVoices(init, model, gender) + kept;
        FilterVoices(a, model, gender) + (FilterVoices(init, model, gender) + kept);
        FilterVoices(a, model, gender) + FilterVoices(b, model, gender);
      }
    }
  }

  /** Each filtered voice as an McpVoice, in the same order. */
  function Project(voices: seq<Voice>): (r: seq<McpVoice>)
    ensures |r| == |voices|
    ensures forall i :: 0 <= i < |voices| ==>
      && r[i].voiceId == voices[i].voiceId && r[i].name == voices[i].name
      && r[i].gender == voices[i].gender && r[i].model == voices[i].model
      && r[i].description == voices[i].description
  {
    seq(|voices|, i requires 0 <= i < |voices| => ToMcpVoice(voices[i]))
  }

  /** Every projected voice keeps the model and gender it was filtered on. */
  lemma ProjectedVoicesMatch(voices: seq<Voice>, model: Option<string>, gender: Option<string>)
    ensures forall x :: x in Project(FilterVoices(voices, model, gender)) ==>
      (model.None? || x.model == model.value) && (gender.None? || x.gender == gender.value)
  {
    var filtered := FilterVoices(voices, model, gender);
    FilterVoicesCounts(voices, model, gender);
    forall x | x in Project(filtered)
      ensures (model.None? || x.model == model.value) && (gender.None? || x.gender == gender.value)
    {
      var i :| 0 <= i < |filtered| && Project(filtered)[i] == x;
      assert filtered[i] in multiset(filtered);
    }
  }

  /** `get_voices(model, gender, sort, sort_direction)` over the SDK's voice list.
      The sort key is read from every voice before any comparison, so sorting
      by timestamp fails exactly when some voice passed the filters. */
  method GetVoices(voices: seq<Voice>, model: Option<string>, gender: Option<string>, sort: SortField, sortDirection: string)
    returns (r: Result<seq<McpVoice>>)
    ensures r.Err? <==> sort == Timestamp && FilterVoices(voices, model, gender) != []
    ensures r.Err? ==> r.error == AttributeError(NoTimestampMessage)
    ensures r.Ok? ==> r.value == StableSort(Project(FilterVoices(voices, model, gender)), sortDirection == "asc")
    ensures r.Ok? ==> forall x :: x in r.value ==>
      (model.None? || x.model == model.value) && (gender.None? || x.gender == gender.value)
    ensures r.Ok? ==> multiset(r.value) == multiset(Project(FilterVoices(voices, model, gender)))
    ensures r.Ok? ==> Ordered(r.value, sortDirection == "asc")
    ensures r.Ok? ==> forall name :: NameRun(r.value, name) == NameRun(Project(FilterVoices(voices, model, gender)), name)
  {
    var filtered := FilterVoices(voices, model, gender);
    var list := Project(filtered);
    var a := new McpVoice[|list|](i requires 0 <= i < |list| => list[i]);
    assert a[..] == list;
    if a.Length > 0 && SortKey(a[0], sort).Err? {
      return Err(SortKey(a[0], sort).error);
    }
    SortInPlace(a, sortDirection == "asc");
    r := Ok(a[..]);
    var ascending := sortDirection == "asc";
    StableSortOrdered(list, ascending);
    StableSortPermutes(list, ascending);
    forall name
      ensures NameRun(r.value, name) == NameRun(list, name)
    {
      StableSortKeepsRuns(list, ascending, name);
    }
    ProjectedVoicesMatch(voices, model, gender);
    assert forall x :: x in r.value ==> x in multiset(list);
  }

  // ---- text_to_speech ----

  const NoLowerMessage := "'NoneType' object has no attribute 'lower'"

  /** `if voice_id.lower() == "null": voice_id = None`, as written: a missing
      voice id has no `lower` and raises. */
  function NormalizeVoiceIdAsWritten(voiceId: Option<string>): (r: Result<Option<string>>)
    ensures r.Err? <==> voiceId.None?
    ensures r.Err? ==> r.error == AttributeError(NoLowerMessage)
    ensures r.Ok? ==> r.value == if IsNullWord(voiceId.value) then None else voiceId
  {
    match voiceId
    case None => Err(AttributeError(NoLowerMessage))
    case Some(v) => Ok(if IsNullWord(v) then None else voiceId)
  }

  /** The try/except around the two paths: the streaming result when it
      returns, otherwise whatever the synchronous path returns or raises. */
  function Dispatch(cfg: Config, text: string, voiceId: Option<string>,
                    streaming: WebsocketTts.StreamingApi, http: HttpTts.HttpApi): Result<Reply>
    requires WebsocketTts.Advancing(streaming.clock)
  {
    var ws := WebsocketTts.WebsocketRun(cfg, text, voiceId, streaming).0;
    if ws.Ok? then ws else HttpTts.TextToSpeechHttp(cfg, Some(text), voiceId, http).result
  }

  /** `text_to_speech(text, voice_id)` as written. */
  function TextToSpeechSpec(cfg: Config, text: string, voiceId: Option<string>,
                            streaming: WebsocketTts.StreamingApi, http: HttpTts.HttpApi): Result<Reply>
    requires WebsocketTts.Advancing(streaming.clock)
  {
    match NormalizeVoiceIdAsWritten(voiceId)
    case Err(e) => Err(e)
    case Ok(v) => Dispatch(cfg, text, v, streaming, http)
  }

  /** `text_to_speech`: normalise, run the streaming path, fall back on any exception. */
  method TextToSpeech(cfg: Config, text: string, voiceId: Option<string>,
                      streaming: WebsocketTts.StreamingApi, http: HttpTts.HttpApi)
    returns (r: Result<Reply>)
    requires WebsocketTts.Advancing(streaming.clock)
    ensures r == TextToSpeechSpec(cfg, text, voiceId, streaming, http)
  {
    var normalized := NormalizeVoiceIdAsWritten(voiceId);
    if normalized.Err? {
      return Err(normalized.error);
    }
    var ws, _ := WebsocketTts.TextToSpeechWebsocket(cfg, text, normalized.value, streaming);
    if ws.Ok? {
      r := ws;
    } else {
      r := HttpTts.TextToSpeechHttp(cfg, Some(text), normalized.value, http).result;
    }
  }

  /** When the synchronous path is reached at all. With credentials, a voice
      to use and no update that raised, the tool returns READY from the
      streaming path and never consults the synchronous one; otherwise the
      caller sees the synchronous path's outcome for the same text and the
      normalised voice id (any casing of "null" becomes no voice id). */
  lemma DispatchFallsBack(cfg: Config, text: string, voiceId: string,
                          streaming: WebsocketTts.StreamingApi, http: HttpTts.HttpApi)
    requires WebsocketTts.Advancing(streaming.clock)
    ensures var v := if IsNullWord(voiceId) then None else Some(voiceId);
      var updates := WebsocketTts.WebsocketRun(cfg, text, v, streaming).1.updates;
      var streamed := !MissingCredentials(cfg) && (Truthy(v) || streaming.voices != [])
                      && forall j :: 0 <= j < updates ==> streaming.polls(j).raises.None?;
      TextToSpeechSpec(cfg, text, Some(voiceId), streaming, http) ==
        if streamed then Ok(StatusReply(Ready)) else HttpTts.TextToSpeechHttp(cfg, Some(text), v, http).result
  {
    var v := if IsNullWord(voiceId) then None else Some(voiceId);
    if !MissingCredentials(cfg) && (Truthy(v) || streaming.voices != []) {
      WebsocketTts.WebsocketSession(cfg, text, v, streaming);
    }
  }

  /** Without credentials the streaming ValueError is swallowed, and the
      caller sees the synchronous path's DaisysMcpError instead. */
  lemma MissingCredentialsSurfaceFromHttp(cfg: Config, text: string, voiceId: string,
                                         streaming: WebsocketTts.StreamingApi, http: HttpTts.HttpApi)
    requires WebsocketTts.Advancing(streaming.clock)
    requires MissingCredentials(cfg)
    ensures TextToSpeechSpec(cfg, text, Some(voiceId), streaming, http) ==
      Err(DaisysMcpError(HttpTts.CredentialsMessage))
  {
  }

  /** Finding, as written: calling the tool without a voice id, the way its
      default invites, never reaches either synthesis path. */
  lemma OmittedVoiceIdRaises(cfg: Config, text: string, streaming: WebsocketTts.StreamingApi, http: HttpTts.HttpApi)
    requires WebsocketTts.Advancing(streaming.clock)
    ensures TextToSpeechSpec(cfg, text, None, streaming, http) == Err(AttributeError(NoLowerMessage))
  {
  }

  // ---- The evidently intended normalisation ----

  /** `None` stays `None`; any casing of "null" becomes `None`; anything else is kept. */
  function NormalizeVoiceId(voiceId: Option<string>): (r: Option<string>)
    ensures r.None? <==> voiceId.None? || IsNullWord(voiceId.value)
    ensures r.Some? ==> r == voiceId
  {
    if voiceId.Some? && IsNullWord(voiceId.value) then None else voiceId
  }

  function TextToSpeechCorrected(cfg: Config, text: string, voiceId: Option<string>,
                                 streaming: WebsocketTts.StreamingApi, http: HttpTts.HttpApi): Result<Reply>
    requires WebsocketTts.Advancing(streaming.clock)
  {
    Dispatch(cfg, text, NormalizeVoiceId(voiceId), streaming, http)
  }

  /** The corrected tool agrees with the written one whenever a voice id is
      given, and without one it dispatches with the default voice instead of
      raising: no AttributeError ever reaches the caller. */
  lemma CorrectedNormalization(cfg: Config, text: string, voiceId: Option<string>,
                               streaming: WebsocketTts.StreamingApi, http: HttpTts.HttpApi)
    requires WebsocketTts.Advancing(streaming.clock)
    ensures voiceId.Some? ==>
      TextToSpeechCorrected(cfg, text, voiceId, streaming, http) == TextToSpeechSpec(cfg, text, voiceId, streaming, http)
    ensures voiceId.None? ==>
      TextToSpeechCorrected(cfg, text, voiceId, streaming, http) == Dispatch(cfg, text, None, streaming, http)
    ensures !TextToSpeechCorrected(cfg, text, voiceId, streaming, http).Err?
         || !TextToSpeechCorrected(cfg, text, voiceId, streaming, http).error.AttributeError?
  {
    var v := NormalizeVoiceId(voiceId);
    if !MissingCredentials(cfg) && (Truthy(v) || streaming.voices != []) {
      WebsocketTts.WebsocketSession(cfg, text, v, streaming);
    }
  }
}
