/**
 The stages wired on one bus. Delivering an event publishes it on its topic;
 each subscribed handler reacts with the events it publishes in turn. The
 model is sequential: the cascade of an event is computed generation by
 generation, and every event in it stays on the originating trace.
 */
module Pipeline {
  import opened Wrappers
  import opened Text
  import opened Contracts
  import opened EventBus
  import opened Rules
  import opened Routing
  import Nlu
  import Stt
  import Echo

  datatype World = World(bus: Bus<Handler>, router: Router, patterns: Patterns, stt: Stt.SttEnv)

  /** A fresh bus with the router, the classification stage, the transcription stage and the echo skill started on it. */
  function Boot(patterns: Patterns, stt: Stt.SttEnv): (w: World)
    ensures w.router.intentToSkill == map[]
    ensures Subscribers(w.bus, AudioRecordedTopic) == [SttOnRecorded]
    ensures Subscribers(w.bus, TranscriptTopic) == [NluOnTranscript]
    ensures Subscribers(w.bus, IntentTopic) == [RouterOnIntent]
    ensures Subscribers(w.bus, SkillRequestTopic) == [EchoOnRequest]
    ensures Subscribers(w.bus, SkillResponseTopic) == [RouterOnResponse]
    ensures Subscribers(w.bus, TtsRequestTopic) == []
  {
    var created := Create(NewBus());
    World(Echo.Start(Stt.Start(Nlu.Start(created.1))), created.0, patterns, stt)
  }

  /** How handler `h` reacts to event `e`: the events it publishes, or a raised exception. */
  function React(w: World, h: Handler, e: Event): (o: Outcome<seq<Event>>)
    ensures o.Returned? ==> OnTrace(e.corrId, o.value)
  {
    match h
    case RouterOnIntent => Returned(OnIntent(w.router, e))
    case RouterOnResponse => Returned(OnResponse(e))
    case NluOnTranscript => Returned(Nlu.OnTranscript(t => Classify(w.patterns, t), e).published)
    case SttOnRecorded => Returned(Stt.OnRecorded(w.stt, e).published)
    case EchoOnRequest => Echo.OnRequest(e)
  }

  /** Publishes `e` on its topic to the world's subscribers. */
  function Deliver(w: World, e: Event): seq<Delivery<Handler, seq<Event>>> {
    Publish(w.bus, e.Topic(), e, (h, ev) => React(w, h, ev))
  }

  /** Everything the invocations of a publish published, in invocation order; raised invocations contribute nothing. */
  function Emitted(ds: seq<Delivery<Handler, seq<Event>>>): seq<Event> {
    if ds == [] then []
    else (if ds[0].outcome.Returned? then ds[0].outcome.value else []) + Emitted(ds[1..])
  }

  lemma {:induction false} EmittedOnTrace(ds: seq<Delivery<Handler, seq<Event>>>, corrId: string)
    requires forall i | 0 <= i < |ds| :: ds[i].outcome.Returned? ==> OnTrace(corrId, ds[i].outcome.value)
    ensures OnTrace(corrId, Emitted(ds))
  {
    if ds != [] {
      EmittedOnTrace(ds[1..], corrId);
      var head := if ds[0].outcome.Returned? then ds[0].outcome.value else [];
      var es := Emitted(ds);
      assert es == head + Emitted(ds[1..]);
      forall i | 0 <= i < |es| ensures es[i].corrId == corrId {
        if i >= |head| { assert es[i] == Emitted(ds[1..])[i - |head|]; }
      }
    }
  }

  /** The events published in direct reaction to `e`. */
  function Children(w: World, e: Event): (es: seq<Event>)
    ensures OnTrace(e.corrId, es)
  {
    EmittedOnTrace(Deliver(w, e), e.corrId);
    Emitted(Deliver(w, e))
  }

  /** The next generation: the children of every event of `frontier`, in order. */
  function NextGeneration(w: World, frontier: seq<Event>): seq<Event> {
    if frontier == [] then [] else Children(w, frontier[0]) + NextGeneration(w, frontier[1..])
  }

  /** `frontier` followed by its descendants down to `depth` more generations. */
  function Cascade(w: World, frontier: seq<Event>, depth: nat): seq<Event>
    decreases depth
  {
    if depth == 0 then frontier else frontier + Cascade(w, NextGeneration(w, frontier), depth - 1)
  }

  lemma {:induction false} NextGenerationOnTrace(w: World, frontier: seq<Event>, corrId: string)
    requires OnTrace(corrId, frontier)
    ensures OnTrace(corrId, NextGeneration(w, frontier))
  {
    if frontier != [] {
      NextGenerationOnTrace(w, frontier[1..], corrId);
      var head := Children(w, frontier[0]);
      var es := NextGeneration(w, frontier);
      forall i | 0 <= i < |es| ensures es[i].corrId == corrId {
        if i >= |head| { assert es[i] == NextGeneration(w, frontier[1..])[i - |head|]; }
      }
    }
  }

  /**
   Traceability: every event caused, directly or transitively, by events of
   one trace carries that trace's correlation identifier.
   */
  lemma {:induction false} CascadeOnTrace(w: World, frontier: seq<Event>, depth: nat, corrId: string)
    requires OnTrace(corrId, frontier)
    ensures OnTrace(corrId, Cascade(w, frontier, depth))
    decreases depth
  {
    if depth > 0 {
      NextGenerationOnTrace(w, frontier, corrId);
      CascadeOnTrace(w, NextGeneration(w, frontier), depth - 1, corrId);
      var rest := Cascade(w, NextGeneration(w, frontier), depth - 1);
      var es := Cascade(w, frontier, depth);
      forall i | 0 <= i < |es| ensures es[i].corrId == corrId {
        if i >= |frontier| { assert es[i] == rest[i - |frontier|]; }
      }
    }
  }

  /** The only child of a single-subscriber delivery that returned. */
  lemma SoleChild(w: World, e: Event, h: Handler, out: seq<Event>)
    requires Subscribers(w.bus, e.Topic()) == [h]
    requires React(w, h, e) == Returned(out)
    ensures Children(w, e) == out
  {
    var ds := Deliver(w, e);
    assert ds[1..] == [];
    assert Emitted(ds) == out + Emitted(ds[1..]);
  }

  /** Hop 1: a recording whose path exists and whose transcription succeeds yields its trimmed transcript. */
  lemma TranscribeHop(w: World, e: Event, text: string)
    requires Subscribers(w.bus, AudioRecordedTopic) == [SttOnRecorded]
    requires e.body.AudioRecorded? && !AllSpace(e.body.wavPath)
    requires w.stt.fileExists(Strip(e.body.wavPath)) && w.stt.transcribe(Strip(e.body.wavPath)) == Some(text)
    ensures Children(w, e) == [Event(e.corrId, SttTranscript(Strip(text)))]
  {
    var step := Stt.OnRecorded(w.stt, e);
    assert step.published == [Event(e.corrId, SttTranscript(Strip(text)))];
    SoleChild(w, e, SttOnRecorded, step.published);
  }

  /** Hop 2: a non-blank transcript yields the intent of its classification. */
  lemma ClassifyHop(w: World, e: Event)
    requires Subscribers(w.bus, TranscriptTopic) == [NluOnTranscript]
    requires e.body.SttTranscript? && !AllSpace(e.body.text)
    ensures Children(w, e) == [Event(e.corrId, Nlu.IntentBody(Classify(w.patterns, Strip(e.body.text))))]
  {
    var step := Nlu.OnTranscript(t => Classify(w.patterns, t), e);
    assert step.published == [Event(e.corrId, Nlu.IntentBody(Classify(w.patterns, Strip(e.body.text))))];
    SoleChild(w, e, NluOnTranscript, step.published);
  }

  /** Hop 3: an intent routed to a non-empty skill yields the request to that skill. */
  lemma RouteHop(w: World, e: Event)
    requires Subscribers(w.bus, IntentTopic) == [RouterOnIntent]
    requires e.body.NluIntent? && ResolveSkill(w.router, e.body.intent) != ""
    ensures Children(w, e) == [Event(e.corrId, SkillRequest(ResolveSkill(w.router, e.body.intent),
      RequestPayload(e.body.entities, e.body.originalText, e.body.confidence)))]
  {
    SoleChild(w, e, RouterOnIntent, OnIntent(w.router, e));
  }

  /** Hop 4: a request to the echo skill with a non-blank original text yields the echoed reply. */
  lemma EchoHop(w: World, e: Event, text: string)
    requires Subscribers(w.bus, SkillRequestTopic) == [EchoOnRequest]
    requires e.body.SkillRequest? && e.body.skill == Echo.SkillName
    requires "original_text" in e.body.payload && e.body.payload["original_text"] == VStr(text) && !AllSpace(text)
    ensures Children(w, e) == [Event(e.corrId, SkillResponse(Echo.SkillName, Some(Echo.SayPrefix + Strip(text))))]
  {
    var out := Echo.OnRequest(e);
    assert out.value == [Event(e.corrId, SkillResponse(Echo.SkillName, Some(Echo.SayPrefix + Strip(text))))];
    SoleChild(w, e, EchoOnRequest, out.value);
  }

  /** Hop 5: a reply with something to say yields the speech request. */
  lemma SpeakHop(w: World, e: Event)
    requires Subscribers(w.bus, SkillResponseTopic) == [RouterOnResponse]
    requires e.body.SkillResponse? && e.body.say.Some? && e.body.say.value != ""
    ensures Children(w, e) == [Event(e.corrId, TtsRequest(e.body.say.value))]
  {
    SoleChild(w, e, RouterOnResponse, OnResponse(e));
  }

  /** The cascade of an event with exactly one child is the event followed by the child's cascade. */
  lemma CascadeOfSoleChild(w: World, e: Event, child: Event, depth: nat)
    requires Children(w, e) == [child]
    ensures Cascade(w, [e], depth + 1) == [e] + Cascade(w, [child], depth)
  {
    assert [e][1..] == [];
    assert NextGeneration(w, [e]) == [child] + NextGeneration(w, []);
    assert NextGeneration(w, [e]) == [child];
  }

  /** A world that recognises "hello" as small talk and routes small talk to the echo skill. */
  function EchoWorld(): World {
    var base := Boot(
      Patterns(t => false, t => false, t => false, t => false, t => false, t => t == "hello", t => []),
      Stt.SttEnv(path => path == "a.wav", path => Some(" hello ")));
    base.(router := RegisterIntent(base.router, "smalltalk", Echo.SkillName))
  }

  lemma EchoWorldWiring()
    ensures var w := EchoWorld();
      && Subscribers(w.bus, AudioRecordedTopic) == [SttOnRecorded]
      && Subscribers(w.bus, TranscriptTopic) == [NluOnTranscript]
      && Subscribers(w.bus, IntentTopic) == [RouterOnIntent]
      && Subscribers(w.bus, SkillRequestTopic) == [EchoOnRequest]
      && Subscribers(w.bus, SkillResponseTopic) == [RouterOnResponse]
      && ResolveSkill(w.router, "smalltalk") == "echo"
  {
  }

  lemma EchoWorldOracles()
    ensures var w := EchoWorld();
      w.stt.fileExists("a.wav") && w.stt.transcribe("a.wav") == Some(" hello ")
  {
  }

  /** "hello" is small talk for patterns where only the greeting pattern matches it. */
  lemma HelloIsSmalltalk(p: Patterns)
    requires !p.joke("hello") && !p.timer("hello") && !p.time("hello")
    requires !p.weather("hello") && !p.music("hello") && p.hello("hello")
    ensures Classify(p, "hello") == NluResult("smalltalk", map[], 0.5, "hello")
  {
    HelloIsTrimmed();
    var r := Classify(p, "hello");
    FirstMatchUnique(p, CategoryOf(r.intent).value, Smalltalk, "hello");
    LabelRoundTrip(Smalltalk, r.intent);
  }

  /** A chain of five sole-child hops is a cascade of six events. */
  lemma ChainOfFive(w: World, e0: Event, e1: Event, e2: Event, e3: Event, e4: Event, e5: Event)
    requires Children(w, e0) == [e1] && Children(w, e1) == [e2] && Children(w, e2) == [e3]
    requires Children(w, e3) == [e4] && Children(w, e4) == [e5]
    ensures Cascade(w, [e0], 5) == [e0, e1, e2, e3, e4, e5]
  {
    CascadeOfSoleChild(w, e4, e5, 0);
    CascadeOfSoleChild(w, e3, e4, 1);
    CascadeOfSoleChild(w, e2, e3, 2);
    CascadeOfSoleChild(w, e1, e2, 3);
    CascadeOfSoleChild(w, e0, e1, 4);
  }

  lemma PathStrips()
    ensures Strip(" a.wav") == "a.wav" && !AllSpace(" a.wav")
  {
    StripOfPadded(" ", "a.wav", "");
    assert " " + "a.wav" + "" == " a.wav";
    StripEmptyIffAllSpace(" a.wav");
  }

  lemma TranscriptionStrips()
    ensures Strip(" hello ") == "hello"
  {
    StripOfPadded(" ", "hello", " ");
    assert " " + "hello" + " " == " hello ";
  }

  lemma HelloIsTrimmed()
    ensures Strip("hello") == "hello" && !AllSpace("hello")
  {
    StripOfPadded("", "hello", "");
    assert "" + "hello" + "" == "hello";
    StripEmptyIffAllSpace("hello");
  }

  lemma EchoOfHello()
    ensures Echo.SayPrefix + Strip("hello") == "You said: hello"
  {
    HelloIsTrimmed();
  }

  lemma HelloTranscribed(w: World)
    requires Subscribers(w.bus, AudioRecordedTopic) == [SttOnRecorded]
    requires w.stt.fileExists("a.wav") && w.stt.transcribe("a.wav") == Some(" hello ")
    ensures Children(w, Event("c1", AudioRecorded(" a.wav", 1.0))) == [Event("c1", SttTranscript("hello"))]
  {
    PathStrips();
    TranscriptionStrips();
    TranscribeHop(w, Event("c1", AudioRecorded(" a.wav", 1.0)), " hello ");
  }

  lemma HelloClassified(w: World)
    requires Subscribers(w.bus, TranscriptTopic) == [NluOnTranscript]
    requires Classify(w.patterns, "hello") == NluResult("smalltalk", map[], 0.5, "hello")
    ensures Children(w, Event("c1", SttTranscript("hello"))) == [Event("c1", NluIntent("smalltalk", map[], 0.5, "hello"))]
  {
    HelloIsTrimmed();
    ClassifyHop(w, Event("c1", SttTranscript("hello")));
  }

  lemma HelloRouted(w: World)
    requires Subscribers(w.bus, IntentTopic) == [RouterOnIntent]
    requires ResolveSkill(w.router, "smalltalk") == "echo"
    ensures Children(w, Event("c1", NluIntent("smalltalk", map[], 0.5, "hello")))
      == [Event("c1", SkillRequest("echo", RequestPayload(map[], "hello", 0.5)))]
  {
    RouteHop(w, Event("c1", NluIntent("smalltalk", map[], 0.5, "hello")));
  }

  lemma HelloAnswered(w: World)
    requires Subscribers(w.bus, SkillRequestTopic) == [EchoOnRequest]
    ensures Children(w, Event("c1", SkillRequest("echo", RequestPayload(map[], "hello", 0.5))))
      == [Event("c1", SkillResponse("echo", Some("You said: hello")))]
  {
    HelloIsTrimmed();
    EchoHop(w, Event("c1", SkillRequest("echo", RequestPayload(map[], "hello", 0.5))), "hello");
    EchoOfHello();
  }

  lemma HelloSpoken(w: World)
    requires Subscribers(w.bus, SkillResponseTopic) == [RouterOnResponse]
    ensures Children(w, Event("c1", SkillResponse("echo", Some("You said: hello"))))
      == [Event("c1", TtsRequest("You said: hello"))]
  {
    SpeakHop(w, Event("c1", SkillResponse("echo", Some("You said: hello"))));
  }

  /**
   One utterance end to end: a recording whose transcription is " hello "
   ends, five hops later, in a speech request saying "You said: hello" on
   the recording's trace.
   */
  lemma HelloIsEchoed()
    ensures Cascade(EchoWorld(), [Event("c1", AudioRecorded(" a.wav", 1.0))], 5)
      == [ Event("c1", AudioRecorded(" a.wav", 1.0)),
           Event("c1", SttTranscript("hello")),
           Event("c1", NluIntent("smalltalk", map[], 0.5, "hello")),
           Event("c1", SkillRequest("echo", RequestPayload(map[], "hello", 0.5))),
           Event("c1", SkillResponse("echo", Some("You said: hello"))),
           Event("c1", TtsRequest("You said: hello")) ]
  {
    var w := EchoWorld();
    EchoWorldWiring();
    EchoWorldOracles();
    HelloIsSmalltalk(w.patterns);
    HelloTranscribed(w);
    HelloClassified(w);
    HelloRouted(w);
    HelloAnswered(w);
    HelloSpoken(w);
    ChainOfFive(w,
      Event("c1", AudioRecorded(" a.wav", 1.0)),
      Event("c1", SttTranscript("hello")),
      Event("c1", NluIntent("smalltalk", map[], 0.5, "hello")),
      Event("c1", SkillRequest("echo", RequestPayload(map[], "hello", 0.5))),
      Event("c1", SkillResponse("echo", Some("You said: hello"))),
      Event("c1", TtsRequest("You said: hello")));
  }
}
