/**
 The transcription stage: on `audio.recorded` it checks the path, asks the
 filesystem whether the file exists, calls the adapter and publishes one
 `stt.transcript` on the recording's trace. The filesystem and the adapter
 are oracles.
 */
module Stt {
  import opened Wrappers
  import opened Text
  import opened Contracts
  import opened EventBus

  /** `transcribe` returns None when the adapter raises. */
  datatype SttEnv = SttEnv(fileExists: string -> bool, transcribe: string -> Option<string>)

  /** What one recording did: the path given to the adapter, if it was called, and what was published. */
  datatype SttStep = SttStep(transcribed: Option<string>, published: seq<Event>)

  /** Subscribes the stage to recordings. */
  function Start(b: Bus<Handler>): (r: Bus<Handler>)
    ensures Subscribers(r, AudioRecordedTopic) == Subscribers(b, AudioRecordedTopic) + [SttOnRecorded]
    ensures forall t :: t != AudioRecordedTopic ==> Subscribers(r, t) == Subscribers(b, t)
  {
    Subscribe(b, AudioRecordedTopic, SttOnRecorded)
  }

  function OnRecorded(env: SttEnv, e: Event): (r: SttStep)
    ensures r.transcribed.Some? <==>
      e.body.AudioRecorded? && !AllSpace(e.body.wavPath) && env.fileExists(Strip(e.body.wavPath))
    ensures r.transcribed.Some? ==> r.transcribed.value == Strip(e.body.wavPath)
    ensures |r.published| <= 1
    ensures |r.published| == 1 <==> r.transcribed.Some? && env.transcribe(r.transcribed.value).Some?
    ensures OnTrace(e.corrId, r.published)
    ensures |r.published| == 1 ==>
      r.published[0].body == SttTranscript(Strip(env.transcribe(r.transcribed.value).value))
  {
    if !e.body.AudioRecorded? then SttStep(None, [])
    else
      var path := Strip(e.body.wavPath);
      StripEmptyIffAllSpace(e.body.wavPath);
      if path == [] then SttStep(None, [])
      else if !env.fileExists(path) then SttStep(None, [])
      else match env.transcribe(path)
        case None => SttStep(Some(path), [])
        case Some(text) =>
          StripEmptyIffAllSpace(text);
          if text == [] || Strip(text) == [] then
            SttStep(Some(path), [SameTrace(e, SttTranscript(""))])
          else
            SttStep(Some(path), [SameTrace(e, SttTranscript(Strip(text)))])
  }

  /** A silent recording (empty or whitespace-only transcription) still publishes one transcript, with empty text. */
  lemma SilencePublishesEmptyTranscript(env: SttEnv, e: Event)
    requires e.body.AudioRecorded? && !AllSpace(e.body.wavPath) && env.fileExists(Strip(e.body.wavPath))
    requires var out := env.transcribe(Strip(e.body.wavPath)); out.Some? && AllSpace(out.value)
    ensures OnRecorded(env, e).published == [Event(e.corrId, SttTranscript(""))]
  {
    StripEmptyIffAllSpace(env.transcribe(Strip(e.body.wavPath)).value);
  }
}
