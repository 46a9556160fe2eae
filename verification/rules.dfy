/**
 The rule-based classifier. The six regular expressions are oracles
 (`Patterns`), each a predicate on the trimmed text, and so is the duration
 tokeniser, which yields the `(number, unit)` pairs it finds in the lowered
 text. What is modelled exactly is the first-match-wins order of the
 categories, the confidence constant of each, the summation of the duration
 tokens and the shape of the result.
 */
module Rules {
  import opened Wrappers
  import opened Text
  import opened Contracts

  /** One `<number><unit>` match of the duration tokeniser. */
  datatype Token = Token(n: nat, unit: string)

  datatype Patterns = Patterns(
    joke: string -> bool,
    timer: string -> bool,
    time: string -> bool,
    weather: string -> bool,
    music: string -> bool,
    hello: string -> bool,
    durationTokens: string -> seq<Token>)

  datatype Category = Joke | Timer | Time | Weather | Music | Smalltalk | Unknown

  /** What the classifier returns. */
  datatype NluResult = NluResult(intent: string, entities: Entities, confidence: real, originalText: string)

  /** The intent name of a category. */
  function Label(c: Category): string {
    match c
    case Joke => "joke"
    case Timer => "timer"
    case Time => "time"
    case Weather => "weather"
    case Music => "music"
    case Smalltalk => "smalltalk"
    case Unknown => "unknown"
  }

  /** The category an intent name names, if any. */
  function CategoryOf(name: string): Option<Category> {
    if name == "joke" then Some(Joke)
    else if name == "timer" then Some(Timer)
    else if name == "time" then Some(Time)
    else if name == "weather" then Some(Weather)
    else if name == "music" then Some(Music)
    else if name == "smalltalk" then Some(Smalltalk)
    else if name == "unknown" then Some(Unknown)
    else None
  }

  /** Labels and categories are in one-to-one correspondence. */
  lemma LabelRoundTrip(c: Category, name: string)
    ensures CategoryOf(Label(c)) == Some(c)
    ensures CategoryOf(name) == Some(c) ==> Label(c) == name
  {
  }

  /** Position of a category in the order the classifier tries them. */
  function Rank(c: Category): nat {
    match c
    case Joke => 0
    case Timer => 1
    case Time => 2
    case Weather => 3
    case Music => 4
    case Smalltalk => 5
    case Unknown => 6
  }

  /** Whether the category's pattern finds a match in `t`; the fallback always matches. */
  predicate Matches(p: Patterns, c: Category, t: string) {
    match c
    case Joke => p.joke(t)
    case Timer => p.timer(t)
    case Time => p.time(t)
    case Weather => p.weather(t)
    case Music => p.music(t)
    case Smalltalk => p.hello(t)
    case Unknown => true
  }

  /** `c` matches `t` and no category tried before it does. */
  predicate IsFirstMatch(p: Patterns, c: Category, t: string) {
    Matches(p, c, t) && forall c' :: Rank(c') < Rank(c) ==> !Matches(p, c', t)
  }

  /** The first match is unique: two categories that both qualify are the same. */
  lemma FirstMatchUnique(p: Patterns, c1: Category, c2: Category, t: string)
    requires IsFirstMatch(p, c1, t) && IsFirstMatch(p, c2, t)
    ensures c1 == c2
  {
    assert Rank(c1) == Rank(c2);
  }

  /** The category-selection cascade. */
  function Decide(p: Patterns, t: string): (c: Category)
    ensures IsFirstMatch(p, c, t)
  {
    if p.joke(t) then Joke
    else if p.timer(t) then Timer
    else if p.time(t) then Time
    else if p.weather(t) then Weather
    else if p.music(t) then Music
    else if p.hello(t) then Smalltalk
    else Unknown
  }

  /** Seconds per unit: units starting with "h" are hours, with "m" minutes, anything else seconds. */
  function UnitSeconds(unit: string): (f: nat)
    ensures unit in {"h", "hr", "hour"} ==> f == 3600
    ensures unit in {"m", "min", "minute"} ==> f == 60
    ensures unit in {"s", "sec", "second"} ==> f == 1
    ensures f >= 1
  {
    if |unit| > 0 && unit[0] == 'h' then 3600
    else if |unit| > 0 && unit[0] == 'm' then 60
    else 1
  }

  function TokenSeconds(tk: Token): nat {
    tk.n * UnitSeconds(tk.unit)
  }

  /** Sum of the seconds of all tokens. */
  function TotalSeconds(ts: seq<Token>): nat {
    if ts == [] then 0 else TokenSeconds(ts[0]) + TotalSeconds(ts[1..])
  }

  lemma {:induction false} TotalSecondsAppend(ts: seq<Token>, tk: Token)
    ensures TotalSeconds(ts + [tk]) == TotalSeconds(ts) + TokenSeconds(tk)
  {
    if ts == [] {
      assert ts + [tk] == [tk];
    } else {
      assert (ts + [tk])[1..] == ts[1..] + [tk];
      TotalSecondsAppend(ts[1..], tk);
    }
  }

  /** The total is zero exactly when every token's number is zero. */
  lemma {:induction false} TotalSecondsZero(ts: seq<Token>)
    ensures TotalSeconds(ts) == 0 <==> forall i | 0 <= i < |ts| :: ts[i].n == 0
  {
    if ts != [] {
      TotalSecondsZero(ts[1..]);
      assert forall i | 1 <= i < |ts| :: ts[i] == ts[1..][i - 1];
    }
  }

  /**
   The running sum of the source's loop over the tokens, in token order;
   it equals the total.
   */
  method SumTokens(ts: seq<Token>) returns (s: nat)
    ensures s == TotalSeconds(ts)
  {
    s := 0;
    var i := 0;
    while i < |ts|
      invariant 0 <= i <= |ts|
      invariant s == TotalSeconds(ts[..i])
    {
      TotalSecondsAppend(ts[..i], ts[i]);
      assert ts[..i + 1] == ts[..i] + [ts[i]];
      s := s + TokenSeconds(ts[i]);
      i := i + 1;
    }
    assert ts[..i] == ts;
  }

  /** The parsed duration: the total, or None when it is zero. */
  function DurationSec(ts: seq<Token>): (r: Option<nat>)
    ensures r.None? <==> forall i | 0 <= i < |ts| :: ts[i].n == 0
    ensures r.Some? ==> r.value == TotalSeconds(ts) && r.value > 0
  {
    TotalSecondsZero(ts);
    var s := TotalSeconds(ts);
    if s == 0 then None else Some(s)
  }

  /** The worked example of two minutes and thirty seconds. */
  lemma DurationExample()
    ensures DurationSec([Token(2, "min"), Token(30, "s")]) == Some(150)
  {
    var ts := [Token(2, "min"), Token(30, "s")];
    assert ts[1..] == [Token(30, "s")] && ts[1..][1..] == [];
  }

  /** The `duration` entity of a timer request. */
  function DurationEntity(seconds: nat): Value {
    VObj(map["seconds" := VInt(seconds)])
  }

  /** The fixed confidence of each outcome. */
  function Confidence(c: Category, withDuration: bool): real {
    match c
    case Joke => 0.9
    case Timer => if withDuration then 0.85 else 0.6
    case Time => 0.8
    case Weather => 0.8
    case Music => 0.7
    case Smalltalk => 0.5
    case Unknown => 0.1
  }

  /**
   Classifies `text`: trims it, picks the first matching category, and for a
   timer request attaches the parsed duration when there is one.
   */
  function Classify(p: Patterns, text: string): (r: NluResult)
    ensures r.originalText == Strip(text)
    ensures CategoryOf(r.intent).Some?
    ensures IsFirstMatch(p, CategoryOf(r.intent).value, Strip(text))
    ensures var dur := DurationSec(p.durationTokens(Strip(text)));
      var timed := CategoryOf(r.intent) == Some(Timer) && dur.Some?;
      && r.confidence == Confidence(CategoryOf(r.intent).value, timed)
      && (timed ==> r.entities == map["duration" := DurationEntity(dur.value)])
      && (!timed ==> r.entities == map[])
  {
    var t := Strip(text);
    var c := Decide(p, t);
    LabelRoundTrip(c, Label(c));
    if c == Timer then
      var dur := DurationSec(p.durationTokens(t));
      if dur.Some? then
        NluResult(Label(c), map["duration" := DurationEntity(dur.value)], Confidence(c, true), t)
      else
        NluResult(Label(c), map[], Confidence(c, false), t)
    else
      NluResult(Label(c), map[], Confidence(c, false), t)
  }

  /** A text that a timer pattern and a time pattern both match is a timer request (unless it asks for a joke). */
  lemma TimerBeatsTime(p: Patterns, text: string)
    requires var t := Strip(text); p.timer(t) && p.time(t) && !p.joke(t)
    ensures Classify(p, text).intent == "timer"
  {
    var r := Classify(p, text);
    FirstMatchUnique(p, CategoryOf(r.intent).value, Timer, Strip(text));
    LabelRoundTrip(Timer, r.intent);
  }

  /** A joke request wins over every other category. */
  lemma JokeWins(p: Patterns, text: string)
    requires p.joke(Strip(text))
    ensures Classify(p, text).intent == "joke"
  {
    var r := Classify(p, text);
    FirstMatchUnique(p, CategoryOf(r.intent).value, Joke, Strip(text));
    LabelRoundTrip(Joke, r.intent);
  }

  /** Every confidence is in (0, 1]; entities are present only for a timer with a duration. */
  lemma ClassifyShape(p: Patterns, text: string)
    ensures var r := Classify(p, text);
      && 0.0 < r.confidence <= 1.0
      && (r.entities != map[] ==> r.intent == "timer" && r.confidence == 0.85)
  {
    var r := Classify(p, text);
    LabelRoundTrip(Timer, r.intent);
  }
}
