/**
 The classification stage: on `stt.transcript` it trims the text, skips
 empty transcripts, classifies the rest and publishes one `nlu.intent`
 on the transcript's trace.
 */
module Nlu {
  import opened Wrappers
  import opened Text
  import opened Contracts
  import opened EventBus
  import opened Rules

  /** What one transcript did: the text given to the classifier, if it was called, and what was published. */
  datatype NluStep = NluStep(classified: Option<string>, published: seq<Event>)

  /** Subscribes the stage to transcripts. */
  function Start(b: Bus<Handler>): (r: Bus<Handler>)
    ensures Subscribers(r, TranscriptTopic) == Subscribers(b, TranscriptTopic) + [NluOnTranscript]
    ensures forall t :: t != TranscriptTopic ==> Subscribers(r, t) == Subscribers(b, t)
  {
    Subscribe(b, TranscriptTopic, NluOnTranscript)
  }

  /** The intent envelope body built from a classification result. */
  function IntentBody(res: NluResult): Body {
    NluIntent(res.intent, res.entities, res.confidence, res.originalText)
  }

  /**
   The handler, for a stage built with classifier `classify`: the source's
   constructor takes any adapter and defaults to the rule-based one.
   */
  function OnTranscript(classify: string -> NluResult, e: Event): (r: NluStep)
    ensures !e.body.SttTranscript? ==> r == NluStep(None, [])
    ensures r.classified.Some? <==> e.body.SttTranscript? && !AllSpace(e.body.text)
    ensures r.classified.Some? ==> r.classified.value == Strip(e.body.text)
    ensures |r.published| == (if r.classified.Some? then 1 else 0)
    ensures OnTrace(e.corrId, r.published)
    ensures r.classified.Some? ==> r.published[0].body == IntentBody(classify(r.classified.value))
  {
    if !e.body.SttTranscript? then NluStep(None, [])
    else
      var text := Strip(e.body.text);
      StripEmptyIffAllSpace(e.body.text);
      if text == [] then NluStep(None, [])
      else
        var res := classify(text);
        NluStep(Some(text), [SameTrace(e, IntentBody(res))])
  }

  /**
   The published intent describes the transcript: its original text is the
   trimmed transcript, its intent is the first category matching that text,
   and it carries the transcript's correlation identifier, when the stage
   uses the default rule-based classifier.
   */
  lemma IntentDescribesTranscript(p: Patterns, e: Event)
    requires e.body.SttTranscript? && !AllSpace(e.body.text)
    ensures var out := OnTranscript(t => Classify(p, t), e).published;
      && |out| == 1
      && out[0].corrId == e.corrId
      && out[0].body.NluIntent?
      && out[0].body.originalText == Strip(e.body.text)
      && CategoryOf(out[0].body.intent).Some?
      && IsFirstMatch(p, CategoryOf(out[0].body.intent).value, Strip(e.body.text))
  {
    StripIdempotent(e.body.text);
  }
}
