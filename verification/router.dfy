/**
 The intent router. It forwards each intent as a skill request to the skill
 its routing table names (the intent's own name by default), and forwards
 each skill response that has something to say as a speech request.
 Malformed payloads are dropped without a publish.
 */
module Routing {
  import opened Wrappers
  import opened Contracts
  import opened EventBus

  datatype Router = Router(intentToSkill: map<string, string>)

  /** Constructs a router on `b`: an empty routing table and two subscriptions. */
  function Create(b: Bus<Handler>): (r: (Router, Bus<Handler>))
    ensures r.0.intentToSkill == map[]
    ensures Subscribers(r.1, IntentTopic) == Subscribers(b, IntentTopic) + [RouterOnIntent]
    ensures Subscribers(r.1, SkillResponseTopic) == Subscribers(b, SkillResponseTopic) + [RouterOnResponse]
    ensures forall t :: t != IntentTopic && t != SkillResponseTopic ==> Subscribers(r.1, t) == Subscribers(b, t)
  {
    (Router(map[]), Subscribe(Subscribe(b, IntentTopic, RouterOnIntent), SkillResponseTopic, RouterOnResponse))
  }

  /** The skill an intent is routed to: the table entry, or the intent itself. */
  function ResolveSkill(r: Router, intent: string): (skill: string)
    ensures intent in r.intentToSkill ==> skill == r.intentToSkill[intent]
    ensures intent !in r.intentToSkill ==> skill == intent
  {
    if intent in r.intentToSkill then r.intentToSkill[intent] else intent
  }

  /** Routes `intent` to `skill` from now on; the last registration wins and no other intent is affected. */
  function RegisterIntent(r: Router, intent: string, skill: string): (r': Router)
    ensures ResolveSkill(r', intent) == skill
    ensures forall i :: i != intent ==> ResolveSkill(r', i) == ResolveSkill(r, i)
  {
    Router(r.intentToSkill[intent := skill])
  }

  /** An intent with no table entry is routed to the skill of the same name. */
  lemma IdentityByDefault(r: Router, intent: string)
    requires intent !in r.intentToSkill
    ensures ResolveSkill(r, intent) == intent
  {
  }

  /** The request payload: the intent's entities, original text and confidence. */
  function RequestPayload(entities: Entities, originalText: string, confidence: real): (m: map<string, Value>)
    ensures m.Keys == {"entities", "original_text", "confidence"}
  {
    map["entities" := VObj(entities), "original_text" := VStr(originalText), "confidence" := VReal(confidence)]
  }

  function OnIntent(r: Router, e: Event): (out: seq<Event>)
    ensures |out| <= 1
    ensures |out| == 1 <==> e.body.NluIntent? && ResolveSkill(r, e.body.intent) != ""
    ensures OnTrace(e.corrId, out)
    ensures |out| == 1 ==>
      && out[0].body.SkillRequest?
      && out[0].body.skill == ResolveSkill(r, e.body.intent)
      && out[0].body.payload.Keys == {"entities", "original_text", "confidence"}
      && out[0].body.payload["entities"] == VObj(e.body.entities)
      && out[0].body.payload["original_text"] == VStr(e.body.originalText)
      && out[0].body.payload["confidence"] == VReal(e.body.confidence)
  {
    if !e.body.NluIntent? then []
    else
      var skill := ResolveSkill(r, e.body.intent);
      if skill == "" then []
      else [SameTrace(e, SkillRequest(skill, RequestPayload(e.body.entities, e.body.originalText, e.body.confidence)))]
  }

  function OnResponse(e: Event): (out: seq<Event>)
    ensures |out| <= 1
    ensures |out| == 1 <==> e.body.SkillResponse? && e.body.say.Some? && e.body.say.value != ""
    ensures OnTrace(e.corrId, out)
    ensures |out| == 1 ==> out[0].body == TtsRequest(e.body.say.value)
  {
    if !e.body.SkillResponse? then []
    else if e.body.say.None? || e.body.say.value == "" then []
    else [SameTrace(e, TtsRequest(e.body.say.value))]
  }

  /** After registering an override, the same intent is requested from the overriding skill. */
  lemma OverrideReroutes(r: Router, e: Event, skill: string)
    requires e.body.NluIntent? && skill != ""
    ensures var out := OnIntent(RegisterIntent(r, e.body.intent, skill), e);
      |out| == 1 && out[0].body.skill == skill && out[0].corrId == e.corrId
  {
  }
}
