# Voice-assistant event pipeline: a Dafny model

This project models the coordination layer of the Fish Assistant voice pipeline.
That layer is an in-process publish/subscribe bus, plus the stages that react to
the bus's events:

- the transcription stage turns `audio.recorded` into `stt.transcript`;
- the classification stage turns `stt.transcript` into `nlu.intent`, using the rule-based classifier;
- the intent router turns `nlu.intent` into `skill.request`, and `skill.response` into `tts.request`;
- the echo skill turns `skill.request` into `skill.response`.

It also models the parameter checks of the voice-activity detector wrapper.

Every stage is a pure step function. It takes the incoming envelope (and the
oracles it consults) and returns the envelopes it publishes. Every envelope is
an `Event(corrId, body)`. An effect takes its cause's correlation identifier
(`Contracts.SameTrace`), which is what the source's `same_trace` does.

Modules, one per source file or concept:

| file | module | models |
|---|---|---|
| `wrappers.dfy` | `Wrappers` | `Option`, `Result` |
| `text.dfy` | `Text` | Python's `str.strip()` with the `str.isspace()` character set |
| `bus.dfy` | `EventBus` | registry, `subscribe`, `publish`, `clear` |
| `contracts.dfy` | `Contracts` | envelopes, topics, same-trace construction, handler identities |
| `rules.dfy` | `Rules` | rule-based classifier and duration summation |
| `nlu.dfy` | `Nlu` | classification stage |
| `stt.dfy` | `Stt` | transcription stage |
| `router.dfy` | `Routing` | intent router |
| `echo.dfy` | `Echo` | echo skill |
| `vad.dfy` | `VoiceActivity` | VAD wrapper parameter checks |
| `pipeline.dfy` | `Pipeline` | the stages wired on one bus; cascades of events; traceability |

Oracles (parameters, never interpreted):

- the six classifier regular expressions and the duration tokeniser (`Rules.Patterns`);
- file existence and the speech-to-text adapter (`Stt.SttEnv`);
- the detector's mode check and its speech decision (`VoiceActivity`);
- what a bus subscriber does (the `invoke` parameter of `EventBus.Publish`);
- the classification stage's adapter (the `classify` parameter of `Nlu.OnTranscript`).

## Model

| member | source | states |
|---|---|---|
| `Contracts.SameTrace` | project-01/assistant/core/router.py:78 | The effect carries the cause's correlation id and exactly the given fields, so it lies on the cause's trace. The cited line is one call site; the same construction is used at router.py:95, nlu.py:79, stt.py:116, stt.py:122 and echo.py:67. |
| `EventBus.NewBus` | project-01/assistant/core/bus.py:45-46 | A new bus has an empty subscriber list for every topic. |
| `EventBus.Subscribe` | project-01/assistant/core/bus.py:49-50 | The subscriber is appended at the end of its topic's list, with no uniqueness check. Every other topic's list is unchanged. |
| `EventBus.Clear` | project-01/assistant/core/bus.py:73-74 | After clear, every topic has zero subscribers. |
| `EventBus.FanOut` | project-01/assistant/core/bus.py:59-68 | Each subscriber of the list is invoked exactly once, in list order, on the payload. Each outcome is recorded whatever its siblings did. |
| `EventBus.Publish` | project-01/assistant/core/bus.py:54-71 | One delivery per subscriber of the list read at call time, in order, each with that subscriber's own outcome. Failures appear only as `Raised` outcomes, and publish itself never raises. |
| `EventBus.PublishInvokesSnapshot` | project-01/assistant/core/bus.py:55-63 | The subscribers invoked by a publish are exactly the topic's list at call time, in order. |
| `EventBus.PublishUnsubscribedTopic` | project-01/assistant/core/bus.py:55-58 | Publishing to a topic with no registry entry invokes nothing and returns normally. |
| `EventBus.SubscribeTwiceInvokesTwice` | project-01/assistant/core/bus.py:49-50 | Subscribing the same subscriber twice makes one publish invoke it two more times than before. |
| `EventBus.FailureIsolation` | project-01/assistant/core/bus.py:61-71 | Changing one subscriber's behaviour, for instance to raising, leaves every other subscriber's delivery and the number of deliveries unchanged. |
| `Text.Strip` | project-01/assistant/core/nlu/nlu.py:65 | The result is a contiguous middle part of the input. Everything cut on either side is whitespace, and the result neither starts nor ends with whitespace. |
| `Text.StripEmptyIffAllSpace` | project-01/assistant/core/nlu/nlu.py:65-68 | A stripped string is empty exactly when the original is all whitespace. |
| `Text.StripOfPadded` | project-01/assistant/core/stt/stt.py:91 | Whitespace, then a trimmed core, then whitespace, strips to exactly that core. This characterises strip uniquely. |
| `Text.StripIdempotent` | project-01/assistant/core/nlu/rules.py:58 | Stripping an already stripped text changes nothing. So the classifier's own strip of the stage's stripped text is harmless. |
| `Rules.Decide` | project-01/assistant/core/nlu/rules.py:60-70 | The chosen category matches the text, and no category tried before it matches. The order is joke, timer, time, weather, music, smalltalk, then the always-matching unknown. |
| `Rules.FirstMatchUnique` | project-01/assistant/core/nlu/rules.py:60-70 | At most one category is the first match of a text, so first-match-wins is a deterministic tie-break. |
| `Rules.LabelRoundTrip` | project-01/assistant/core/nlu/rules.py:61-70 | Each category has its own intent name, and the name maps back to the category. |
| `Rules.UnitSeconds` | project-01/assistant/core/nlu/rules.py:51-53 | Hour units (h, hr, hour) count 3600 s, minute units (m, min, minute) 60 s and second units (s, sec, second) 1 s. No unit counts less than 1 s. |
| `Rules.TotalSecondsZero` | project-01/assistant/core/nlu/rules.py:53-54 | The token sum is zero exactly when every token's number is zero. |
| `Rules.SumTokens` | project-01/assistant/core/nlu/rules.py:50-53 | The source's left-to-right accumulation loop computes the sum over all tokens of number times unit seconds. |
| `Rules.DurationSec` | project-01/assistant/core/nlu/rules.py:47-54 | No duration when there are no tokens or all numbers are zero. Otherwise the duration is the positive token sum. |
| `Rules.DurationExample` | project-01/assistant/core/nlu/rules.py:50-53 | The tokens (2, "min") and (30, "s") give 150 seconds. |
| `Rules.Classify` | project-01/assistant/core/nlu/rules.py:57-70 | `original_text` is the stripped input, and the intent is the first matching category of that text. The confidence is that category's constant: 0.85 for a timer with a duration, 0.6 without. Entities hold only `duration.seconds`, and only for a timer with a duration. |
| `Rules.TimerBeatsTime` | project-01/assistant/core/nlu/rules.py:60-66 | A text matching both the timer and the time pattern, and not the joke pattern, is classified as timer. |
| `Rules.JokeWins` | project-01/assistant/core/nlu/rules.py:60-61 | A text matching the joke pattern is a joke, whatever else it matches. |
| `Rules.ClassifyShape` | project-01/assistant/core/nlu/rules.py:59-70 | Every confidence lies in (0, 1]. A non-empty entity map occurs only for a timer with confidence 0.85. |
| `Nlu.Start` | project-01/assistant/core/nlu/nlu.py:53-54 | Starting the stage adds its one subscription to `stt.transcript`. |
| `Nlu.OnTranscript` | project-01/assistant/core/nlu/nlu.py:56-83 | A malformed payload or an all-whitespace text is dropped, and the classifier is not called. Otherwise the classifier gets the stripped text, and exactly one intent is published with the result's fields and the transcript's correlation id. |
| `Nlu.IntentDescribesTranscript` | project-01/assistant/core/nlu/nlu.py:65-79 | The published intent's `original_text` is the stripped transcript. Its intent is the first category matching that text, and it carries the transcript's correlation id. |
| `Routing.Create` | project-01/assistant/core/router.py:51-57 | A new router has an empty table. It adds exactly two subscriptions, on `nlu.intent` and `skill.response`, and changes no other topic. |
| `Routing.RegisterIntent` | project-01/assistant/core/router.py:100-101 | After registration the intent resolves to the new skill (last write wins). Every other intent resolves as before. |
| `Routing.ResolveSkill` | project-01/assistant/core/router.py:59-61 | The table entry if present, else the intent itself. |
| `Routing.IdentityByDefault` | project-01/assistant/core/router.py:59-61 | An intent without a table entry resolves to itself. |
| `Routing.RequestPayload` | project-01/assistant/core/router.py:76 | The request payload has exactly the keys `entities`, `original_text` and `confidence`. |
| `Routing.OnIntent` | project-01/assistant/core/router.py:63-80 | Exactly one `skill.request` is published, if and only if the payload is an intent whose resolved skill is non-empty. It names the resolved skill, copies the entities, original text and confidence unchanged, and keeps the intent's correlation id. Otherwise nothing is published. |
| `Routing.OnResponse` | project-01/assistant/core/router.py:83-96 | Exactly one `tts.request` is published, if and only if the payload is a skill response with a present, non-empty `say`. Its text is that `say`, and it keeps the response's correlation id. |
| `Routing.OverrideReroutes` | project-01/assistant/core/router.py:70-101 | After an override, the same intent event yields one request to the overriding skill, on the intent's trace. |
| `Stt.Start` | project-01/assistant/core/stt/stt.py:81-82 | Starting the stage adds its one subscription to `audio.recorded`. |
| `Stt.OnRecorded` | project-01/assistant/core/stt/stt.py:84-123 | The adapter is called, with the stripped path, exactly when the payload is well-formed, the stripped path is non-empty and the file exists. At most one transcript is published, exactly when the adapter returns. Its text is the stripped transcription, and it has the recording's correlation id. |
| `Stt.SilencePublishesEmptyTranscript` | project-01/assistant/core/stt/stt.py:112-118 | An empty or whitespace-only transcription publishes exactly one transcript, with empty text, on the recording's trace. |
| `Echo.Start` | project-01/assistant/skills/echo.py:44-45 | Starting the skill adds its one subscription to `skill.request`. |
| `Echo.OnRequest` | project-01/assistant/skills/echo.py:47-69 | Malformed requests, requests for other skills, and a missing or blank `original_text` publish nothing. A non-string `original_text` raises. Otherwise exactly one `echo` response saying "You said: " plus the stripped text is published, with the request's correlation id. |
| `Echo.ReplyIsSpoken` | project-01/assistant/skills/echo.py:60-66 | Every echo reply has a non-empty `say`, longer than the prefix, so the router always forwards it to speech. |
| `VoiceActivity.NewVad` | project-01/assistant/core/audio/vad.py:61-74 | Construction succeeds only at 8000 or 16000 Hz, with a mode the detector accepts. Any other rate gives the sample-rate error. A frame holds exactly 30 ms of samples. |
| `VoiceActivity.FrameSizes` | project-01/assistant/core/audio/vad.py:42-74 | A frame is 480 samples at the default 16000 Hz, equal to `FRAME_SIZE`, and 240 samples at 8000 Hz. |
| `VoiceActivity.ToBytes` | project-01/assistant/core/audio/vad.py:94-95 | A chunk becomes two bytes per sample. |
| `VoiceActivity.BytesRoundTrip` | project-01/assistant/core/audio/vad.py:94-95 | The byte conversion loses nothing: the samples decode back exactly. |
| `VoiceActivity.IsSpeech` | project-01/assistant/core/audio/vad.py:77-101 | A chunk whose length is not the frame size is rejected with an error naming both lengths. Otherwise the detector reads the chunk's 2·frame-size bytes, and an exception from it counts as no speech. |
| `Pipeline.Boot` | project-01/assistant/core/router.py:56-57 | With the router, classification stage, transcription stage and echo skill started on a fresh bus, each pipeline topic has exactly its one consumer, and `tts.request` has none. The cited lines are the router's two subscriptions; the other three components' subscriptions are the `Start` rows above, and the code that starts all four together is not part of this model. |
| `Pipeline.React` | project-01/assistant/core/router.py:63-96 | Whatever a subscribed handler publishes carries the correlation id of the event it reacted to. The cited lines are the router's two handlers (same-trace at router.py:78 and router.py:95); the other three are the classification stage (nlu.py:79), the transcription stage (stt.py:116 and stt.py:122) and the echo skill (echo.py:67). |
| `Pipeline.Children` | project-01/assistant/core/bus.py:60-68 | Every event published in direct reaction to a delivered event carries that event's correlation id. |
| `Pipeline.CascadeOnTrace` | project-01/assistant/core/stt/stt.py:116-122 | Every event caused, directly or transitively, by events of one trace carries that trace's correlation id, at any depth. |
| `Pipeline.HelloIsEchoed` | project-01/assistant/skills/echo.py:60-69 | In a world that classifies "hello" as small talk and routes small talk to echo, a recording transcribed as " hello " produces six events. They are the recording, transcript "hello", intent smalltalk (0.5), a request to echo, the reply "You said: hello" and the matching speech request, all on the recording's trace. |

## Left out

- EventBus.Publish: non-terminating subscribers are not modelled. The source awaits every task (bus.py:68) with no timeout, so a subscriber that never finishes (a transcription blocked in `run_in_executor`, stt.py:105-106, say) stalls `publish` and its producer. In the model the `invoke` oracle always yields an outcome, so publish always returns.
- Concurrency: `asyncio.create_task` and `gather` are modelled as sequential invocation in list order. The source runs subscribers concurrently, and their relative order is not a property of the source.
- Nested publishes are modelled generation by generation (`Pipeline.Cascade`), not as the depth-first nesting of awaited publishes.
- A scheduling failure (bus.py:64-65) and a subscriber exception are both modelled as one `Raised` outcome. Both are caught, logged and swallowed.
- Logging, including the per-index failure log and the no-subscriber warning, has no observable effect and is not modelled.
- Publish never changes the registry. In the model it returns only deliveries and takes the bus by value, so the registry's invariance holds by construction.
- Envelope decoding: the contracts module (envelope classes, dict encoding, `same_trace`) is not part of this model. Decoding a payload is modelled as the body having the expected variant, and any other payload is malformed. `same_trace` is modelled as building the effect with the cause's correlation id. The dict round trip is not claimed.
- Fresh correlation-id generation at the start of a trace is randomness and is not modelled. Events carry whatever id they are given.
- The classifier's regular expressions (rules.py:40-45) and the duration tokeniser (rules.py:51, including its lower-casing) are uninterpreted oracles. Their regex semantics are not modelled.
- Confidences are exact `real` constants rather than binary floating-point values.
- The transcription adapter (whisper or remote) is an oracle. Returning `None` stands for an adapter exception. The recording's `duration_s` is carried but only logged by the source.
- File existence and webrtcvad (`Vad(mode)` and `is_speech`) are oracles. The existence test (stt.py:97) sits outside any `try`, so in the source it can raise (a `PermissionError`, say) and the bus then records an exception. The model's oracle only answers true or false, so that path returns with nothing published rather than as `Raised`. Nothing is published in either case. The sample byte order is little-endian, as numpy's native order on the target hardware.
- `Pipeline.Boot` starts the components in one fixed order. The application entry point that does this is not part of this model.
- The STT `stop` method only logs and is not modelled.
- The transcription stage publishes an empty transcript so the conversation loop can reset (stt.py:113-114). The classification stage skips it without publishing (nlu.py:65-68), and the model follows the code.
- The classification stage's adapter is an oracle in `Nlu.OnTranscript`. The pipeline model (`Pipeline.React`) fixes it to the default rule-based classifier, as `adapter or RulesNLU()` does when none is given. An adapter that raises is not modelled.
