/** The records of the external text-to-speech SDK as far as the adapter
    reads them, and the voice choice both synthesis paths make from them.
    The SDK's calls themselves are inputs of the model, not part of it. */
module Sdk {
  import opened Common

  /** A voice as `speak.get_voices()` lists it, in creation order. The SDK
      record also carries a creation time, which the adapter's own voice
      record does not copy. */
  datatype Voice = Voice(
    voiceId: string,
    name: string,
    gender: string,
    model: string,
    description: Option<string>,
    timestampMs: int)

  /** The status of a take; only READY is terminal success. */
  datatype TakeStatus = Waiting | Started | Progress(percent: nat) | Ready | Error | Timeout

  /** A take: one synthesis job on the provider's side. */
  datatype Take = Take(takeId: string, status: TakeStatus)

  /** The dictionaries the two synthesis paths return: `{"status": Status.READY}`
      and `{"status": "Audio played successfully through."}`. */
  datatype Reply = StatusReply(status: TakeStatus) | MessageReply(message: string)

  /** `voice_id`, or, when it is falsy, the id of the last voice listed.
      None when there is no voice to fall back on (the IndexError case). */
  function ChooseVoice(voiceId: Option<string>, voices: seq<Voice>): (r: Option<string>)
    ensures r.None? <==> !Truthy(voiceId) && voices == []
    ensures Truthy(voiceId) ==> r == voiceId
    ensures !Truthy(voiceId) && voices != [] ==> r == Some(voices[|voices| - 1].voiceId)
  {
    if Truthy(voiceId) then voiceId
    else if voices == [] then None
    else Some(voices[|voices| - 1].voiceId)
  }
}
