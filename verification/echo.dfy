/**
 The echo skill: answers requests addressed to "echo" with the user's own
 words. Reading `original_text` outside the decoding guard means a
 non-string value raises inside the subscriber, which the bus records as a
 failed invocation.
 */
module Echo {
  import opened Wrappers
  import opened Text
  import opened Contracts
  import opened EventBus

  const SkillName := "echo"
  const SayPrefix := "You said: "

  /** Subscribes the skill to requests. */
  function Start(b: Bus<Handler>): (r: Bus<Handler>)
    ensures Subscribers(r, SkillRequestTopic) == Subscribers(b, SkillRequestTopic) + [EchoOnRequest]
    ensures forall t :: t != SkillRequestTopic ==> Subscribers(r, t) == Subscribers(b, t)
  {
    Subscribe(b, SkillRequestTopic, EchoOnRequest)
  }

  /** A request addressed to this skill: a skill request whose `skill` is `echo`. */
  predicate Addressed(e: Event) {
    e.body.SkillRequest? && e.body.skill == SkillName
  }

  function OnRequest(e: Event): (r: Outcome<seq<Event>>)
    ensures r.Raised? <==>
      Addressed(e) && "original_text" in e.body.payload && !e.body.payload["original_text"].VStr?
    ensures r.Returned? ==> |r.value| <= 1 && OnTrace(e.corrId, r.value)
    ensures r.Returned? && |r.value| == 1 <==>
      Addressed(e) && "original_text" in e.body.payload
      && e.body.payload["original_text"].VStr? && !AllSpace(e.body.payload["original_text"].s)
    ensures r.Returned? && |r.value| == 1 ==>
      r.value[0].body == SkillResponse(SkillName, Some(SayPrefix + Strip(e.body.payload["original_text"].s)))
  {
    if !e.body.SkillRequest? then Returned([])
    else if e.body.skill != SkillName then Returned([])
    else
      var raw := if "original_text" in e.body.payload then e.body.payload["original_text"] else VStr("");
      if !raw.VStr? then Raised
      else
        var text := Strip(raw.s);
        StripEmptyIffAllSpace(raw.s);
        if text == [] then Returned([])
        else Returned([SameTrace(e, SkillResponse(SkillName, Some(SayPrefix + text)))])
  }

  /** The echoed line, once the router forwards it, is spoken as is: a reply always has something to say. */
  lemma ReplyIsSpoken(e: Event)
    requires OnRequest(e).Returned? && |OnRequest(e).value| == 1
    ensures var reply := OnRequest(e).value[0];
      reply.body.say.Some? && reply.body.say.value != "" && |reply.body.say.value| > |SayPrefix|
  {
  }
}
