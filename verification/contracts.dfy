/**
 The envelopes exchanged on the bus. Every envelope carries a correlation
 identifier; an effect built in reaction to a cause takes the cause's
 identifier ("same trace") instead of a fresh one.

 The envelope classes and their dict decoding live in a contracts module that
 is not part of this model: decoding a payload into the envelope a handler
 expects is modelled as the body having that variant, and any payload that
 decodes into no envelope is `Unparsed`.
 */
module Contracts {
  import opened Wrappers

  /** A JSON-like value, as found in entity maps and request payloads. */
  datatype Value =
    | VNull
    | VBool(b: bool)
    | VInt(i: int)
    | VReal(x: real)
    | VStr(s: string)
    | VList(items: seq<Value>)
    | VObj(fields: map<string, Value>)

  type Entities = map<string, Value>

  const AudioRecordedTopic := "audio.recorded"
  const TranscriptTopic := "stt.transcript"
  const IntentTopic := "nlu.intent"
  const SkillRequestTopic := "skill.request"
  const SkillResponseTopic := "skill.response"
  const TtsRequestTopic := "tts.request"

  /** The type-specific fields of an envelope. */
  datatype Body =
    | AudioRecorded(wavPath: string, durationS: real)
    | SttTranscript(text: string)
    | NluIntent(intent: string, entities: Entities, confidence: real, originalText: string)
    | SkillRequest(skill: string, payload: map<string, Value>)
    | SkillResponse(skill: string, say: Option<string>)
    | TtsRequest(text: string)
    | Unparsed(topic: string, fields: map<string, Value>)
  {
    /** The topic an envelope of this type is published on. */
    function Topic(): string {
      match this
      case AudioRecorded(_, _) => AudioRecordedTopic
      case SttTranscript(_) => TranscriptTopic
      case NluIntent(_, _, _, _) => IntentTopic
      case SkillRequest(_, _) => SkillRequestTopic
      case SkillResponse(_, _) => SkillResponseTopic
      case TtsRequest(_) => TtsRequestTopic
      case Unparsed(t, _) => t
    }
  }

  /** An envelope: a correlation identifier and the typed fields. */
  datatype Event = Event(corrId: string, body: Body) {
    function Topic(): string { body.Topic() }
  }

  /** Builds the effect `body` on the same trace as `cause`. */
  function SameTrace(cause: Event, body: Body): (e: Event)
    ensures e.corrId == cause.corrId && e.body == body
    ensures OnTrace(cause.corrId, [e])
  {
    Event(cause.corrId, body)
  }

  /** Every event of `es` belongs to the trace `corrId`. */
  predicate OnTrace(corrId: string, es: seq<Event>) {
    forall i | 0 <= i < |es| :: es[i].corrId == corrId
  }

  /** The subscribing callbacks of the pipeline's components. */
  datatype Handler =
    | RouterOnIntent
    | RouterOnResponse
    | NluOnTranscript
    | SttOnRecorded
    | EchoOnRequest
}
