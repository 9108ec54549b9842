/** The pool of AI providers: round-robin selection, fallback over one full
    rotation, the status classification every provider applies to its HTTP
    reply, and the message envelope each service expects. The remote
    services themselves are a parameter: a function from the attempt, the
    provider and the envelope sent to the reply the service gives. */
module Providers {
  import opened Strings
  import opened Wrappers

  // ---------------------------------------------------------------------
  // Configuration and providers
  // ---------------------------------------------------------------------

  datatype ProviderType = Claude | OpenAI | Google | Local

  /** The enumeration value of a provider type, which is the provider's name. */
  function TypeValue(t: ProviderType): string {
    match t
    case Claude => "claude"
    case OpenAI => "openai"
    case Google => "google"
    case Local => "local"
  }

  /** A provider configuration; `temperature` is not part of this model. */
  datatype ProviderConfig = ProviderConfig(
    providerType: ProviderType,
    apiKey: string,
    model: string,
    baseUrl: Option<string>,
    maxTokens: int)

  /** A configuration with the defaults of the dataclass: no base URL, 4096 tokens. */
  function DefaultConfig(t: ProviderType, apiKey: string, model: string): ProviderConfig {
    ProviderConfig(t, apiKey, model, None, 4096)
  }

  /** The concrete provider class, which decides the envelope and the error texts. */
  datatype Adapter = ClaudeAdapter | OpenAIAdapter | GoogleAdapter

  /** A provider object: its class and its configuration. */
  datatype Provider = Provider(adapter: Adapter, config: ProviderConfig) {
    /** The `name` property: the value of the configured provider type. */
    function Name(): (r: string)
      ensures forall t :: TypeValue(t) == r <==> t == config.providerType
    {
      TypeValue(config.providerType)
    }
  }

  // ---------------------------------------------------------------------
  // Message envelopes
  // ---------------------------------------------------------------------

  /** A conversation entry `{"role": ..., "content": ...}`. */
  datatype ChatMessage = ChatMessage(role: string, content: string)

  /** A Gemini content block `{"role": ..., "parts": [{"text": ...}, ...]}`. */
  datatype Content = Content(role: string, parts: seq<string>)

  /** The conversation part of the request body each service receives. */
  datatype Envelope =
    | AnthropicBody(system: string, messages: seq<ChatMessage>)
    | OpenAIBody(messages: seq<ChatMessage>)
    | GeminiBody(contents: seq<Content>)

  const GeminiAcknowledgement := "Understood. I will follow these instructions."

  /** OpenAI receives the system prompt as a first `system` message before the conversation. */
  function OpenAIMessages(system: string, messages: seq<ChatMessage>): (r: seq<ChatMessage>)
    ensures |r| == |messages| + 1
    ensures r[0] == ChatMessage("system", system)
    ensures r[1..] == messages
  {
    [ChatMessage("system", system)] + messages
  }

  /** Gemini knows only the roles `user` and `model`. */
  function GeminiRole(role: string): (r: string)
    ensures r == "user" <==> role == "user"
    ensures r != "user" ==> r == "model"
  {
    if role == "user" then "user" else "model"
  }

  function GeminiTurn(m: ChatMessage): Content {
    Content(GeminiRole(m.role), [m.content])
  }

  /** One Gemini turn per chat message, in order. */
  function GeminiTurns(messages: seq<ChatMessage>): (r: seq<Content>)
    ensures |r| == |messages|
    ensures forall i :: 0 <= i < |messages| ==> r[i] == GeminiTurn(messages[i])
  {
    seq(|messages|, i requires 0 <= i < |messages| => GeminiTurn(messages[i]))
  }

  /** Gemini receives a synthetic user turn carrying the system prompt, a
      fixed model turn acknowledging it, and then one turn per message. */
  function GeminiContents(system: string, messages: seq<ChatMessage>): (r: seq<Content>)
    ensures |r| == |messages| + 2
    ensures r[0] == Content("user", ["System: " + system])
    ensures r[1] == Content("model", [GeminiAcknowledgement])
    ensures r[2..] == GeminiTurns(messages)
  {
    [Content("user", ["System: " + system]), Content("model", [GeminiAcknowledgement])] + GeminiTurns(messages)
  }

  /** Appending a message to the conversation appends its turn to the contents. */
  lemma GeminiContentsAppend(system: string, messages: seq<ChatMessage>, m: ChatMessage)
    ensures GeminiContents(system, messages + [m]) == GeminiContents(system, messages) + [GeminiTurn(m)]
  {
    var longer := GeminiContents(system, messages + [m]);
    var shorter := GeminiContents(system, messages) + [GeminiTurn(m)];
    forall i | 2 <= i < |longer|
      ensures longer[i] == shorter[i]
    {
      assert (messages + [m])[i - 2] == if i - 2 < |messages| then messages[i - 2] else m;
    }
  }

  /** `GoogleProvider.generate` builds the Gemini contents one message at a time. */
  method BuildGeminiContents(system: string, messages: seq<ChatMessage>) returns (contents: seq<Content>)
    ensures contents == GeminiContents(system, messages)
  {
    contents := [];
    contents := contents + [Content("user", ["System: " + system])];
    contents := contents + [Content("model", [GeminiAcknowledgement])];
    for i := 0 to |messages|
      invariant contents == GeminiContents(system, messages[..i])
    {
      var role := if messages[i].role == "user" then "user" else "model";
      GeminiContentsAppend(system, messages[..i], messages[i]);
      assert messages[..i + 1] == messages[..i] + [messages[i]];
      contents := contents + [Content(role, [messages[i].content])];
    }
    assert messages[..|messages|] == messages;
  }

  /** Reading a Gemini conversation back into chat messages, skipping the
      two system turns. */
  function GeminiMessages(contents: seq<Content>): seq<ChatMessage>
    requires |contents| >= 2
    requires forall i :: 2 <= i < |contents| ==> |contents[i].parts| == 1
  {
    seq(|contents| - 2, i requires 0 <= i < |contents| - 2 =>
      ChatMessage(contents[i + 2].role, contents[i + 2].parts[0]))
  }

  /** A conversation that already uses Gemini's role vocabulary passes
      through the translation unchanged, text and roles alike. */
  lemma GeminiRoundTrip(system: string, messages: seq<ChatMessage>)
    requires forall i :: 0 <= i < |messages| ==> messages[i].role == "user" || messages[i].role == "model"
    ensures GeminiMessages(GeminiContents(system, messages)) == messages
  {
    var c := GeminiContents(system, messages);
    var turns := GeminiTurns(messages);
    forall i | 0 <= i < |messages|
      ensures GeminiMessages(c)[i] == messages[i]
    {
      assert c[i + 2] == turns[i];
    }
  }

  /** The envelope each provider class builds from the system prompt and conversation. */
  function EnvelopeFor(a: Adapter, system: string, messages: seq<ChatMessage>): Envelope {
    match a
    case ClaudeAdapter => AnthropicBody(system, messages)
    case OpenAIAdapter => OpenAIBody(OpenAIMessages(system, messages))
    case GoogleAdapter => GeminiBody(GeminiContents(system, messages))
  }

  // ---------------------------------------------------------------------
  // Calling a provider
  // ---------------------------------------------------------------------

  /** What a call to a service gives back: an HTTP status with the text the
      provider extracts from the JSON body, or an exception raised on the way
      (transport failure, timeout, a body without the expected fields). */
  datatype Response = Http(status: int, text: string) | Raised(detail: string)

  /** The remote services: the reply to the `k`-th call of a fallback round,
      made to a provider with an envelope. */
  type Service = (nat, Provider, Envelope) -> Response

  /** What `generate` ends in: the text, a `RateLimitError` or another error,
      each error with the text of its message. */
  datatype Outcome = Ok(text: string) | RateLimited(message: string) | Failed(message: string)

  /** The service label each provider class writes into its error messages. */
  function Label(a: Adapter): string {
    match a
    case ClaudeAdapter => "Claude"
    case OpenAIAdapter => "OpenAI"
    case GoogleAdapter => "Google"
  }

  /** The status check every provider class makes: 429 is a rate limit, any
      other status but 200 an API error naming the status, 200 a success. */
  function Classify(a: Adapter, r: Response): (o: Outcome)
    ensures o.Ok? <==> r.Http? && r.status == 200
    ensures o.RateLimited? <==> r.Http? && r.status == 429
    ensures o.Ok? ==> o.text == r.text
    ensures o.RateLimited? ==> o.message == Label(a) + " rate limit exceeded"
    ensures r.Http? && o.Failed? ==> o.message == Label(a) + " API Error: " + IntToString(r.status)
    ensures r.Raised? ==> o == Failed(r.detail)
  {
    match r
    case Raised(detail) => Failed(detail)
    case Http(status, text) =>
      if status == 429 then RateLimited(Label(a) + " rate limit exceeded")
      else if status != 200 then Failed(Label(a) + " API Error: " + IntToString(status))
      else Ok(text)
  }

  /** The outcome of `p.generate(system, messages)` as the `k`-th call of a round. */
  function GenerateOutcome(p: Provider, system: string, messages: seq<ChatMessage>, service: Service, k: nat): Outcome {
    Classify(p.adapter, service(k, p, EnvelopeFor(p.adapter, system, messages)))
  }

  /** What the pool sees of `generate`: the outcome of the `k`-th call of a
      round, made on a provider with the system prompt and the messages. */
  type Generator = (Provider, string, seq<ChatMessage>, nat) -> Outcome

  /** The generator the provider classes make of a service. */
  function ViaService(service: Service): Generator {
    (p: Provider, system: string, messages: seq<ChatMessage>, k: nat) => GenerateOutcome(p, system, messages, service, k)
  }

  /** The reply the service gives to the k-th attempt of a round. */
  function ServiceReply(ps: seq<Provider>, start: nat, system: string, messages: seq<ChatMessage>, service: Service, k: nat)
    : Response
    requires start < |ps| && k < |ps|
  {
    var p := Rotation(ps, start, k);
    service(k, p, EnvelopeFor(p.adapter, system, messages))
  }

  /** With real provider calls, the fallback succeeds exactly when the service
      answers some attempt of the round with status 200. */
  lemma ServiceFallbackSucceedsIff(ps: seq<Provider>, start: nat, system: string, messages: seq<ChatMessage>, service: Service)
    requires CursorIn(ps, start)
    ensures Fallback(ps, start, system, messages, ViaService(service)).Success?
            <==> exists k :: 0 <= k < |ps| && ServiceReply(ps, start, system, messages, service, k).Http?
                                            && ServiceReply(ps, start, system, messages, service, k).status == 200
  {
    var generate := ViaService(service);
    FallbackSucceedsIff(ps, start, system, messages, generate);
    forall k | 0 <= k < |ps|
      ensures Attempt(ps, start, system, messages, generate, k).Ok?
              <==> ServiceReply(ps, start, system, messages, service, k).Http?
                   && ServiceReply(ps, start, system, messages, service, k).status == 200
    {
      var p := Rotation(ps, start, k);
      assert Attempt(ps, start, system, messages, generate, k)
             == Classify(p.adapter, ServiceReply(ps, start, system, messages, service, k));
    }
  }

  /** `generate` of the provider's class: build the envelope, call the
      service, classify the reply. */
  method Generate(p: Provider, system: string, messages: seq<ChatMessage>, service: Service, k: nat)
    returns (o: Outcome)
    ensures o == GenerateOutcome(p, system, messages, service, k)
  {
    var envelope: Envelope;
    match p.adapter {
      case ClaudeAdapter =>
        envelope := AnthropicBody(system, messages);
      case OpenAIAdapter =>
        var openaiMessages := [ChatMessage("system", system)];
        openaiMessages := openaiMessages + messages;
        envelope := OpenAIBody(openaiMessages);
      case GoogleAdapter =>
        var contents := BuildGeminiContents(system, messages);
        envelope := GeminiBody(contents);
    }
    var response := service(k, p, envelope);
    match response {
      case Raised(detail) =>
        o := Failed(detail);
      case Http(status, text) =>
        if status == 429 {
          o := RateLimited(Label(p.adapter) + " rate limit exceeded");
        } else if status != 200 {
          o := Failed(Label(p.adapter) + " API Error: " + IntToString(status));
        } else {
          o := Ok(text);
        }
    }
  }

  // ---------------------------------------------------------------------
  // The fallback round, as a specification
  // ---------------------------------------------------------------------

  /** The errors of the pool: `ValueError` from an empty rotation, or a `ProviderError`. */
  datatype PoolError = NoProviders | ProviderError(message: string) {
    function Message(): string {
      match this
      case NoProviders => "No providers available in pool"
      case ProviderError(message) => message
    }
  }

  /** The text and the name of the provider that produced it. */
  datatype Reply = Reply(text: string, providerName: string)

  /** The positions the pool's invariant allows for the rotation cursor. */
  predicate CursorIn(ps: seq<Provider>, cursor: nat) {
    if ps == [] then cursor == 0 else cursor < |ps|
  }

  lemma MulAtLeastTwice(q: int, n: nat)
    requires q >= 2
    ensures q * n >= 2 * n
  {
  }

  lemma MulNonPositive(q: int, n: nat)
    requires q <= 0
    ensures q * n <= 0
  {
  }

  /** Below `2 * n`, taking the remainder is at most one subtraction of `n`. */
  lemma ModOnce(x: nat, n: nat)
    requires n <= x < 2 * n
    ensures x % n == x - n
  {
    var q := x / n;
    assert x == q * n + x % n;
    if q >= 2 {
      MulAtLeastTwice(q, n);
    } else if q <= 0 {
      MulNonPositive(q, n);
    }
  }

  /** `x mod n` for `x < 2 * n`, written without division (see `WrapMod`). */
  function Wrap(x: nat, n: nat): (r: nat)
    requires x < 2 * n
    ensures r < n
  {
    if x < n then x else x - n
  }

  lemma WrapMod(x: nat, n: nat)
    requires x < 2 * n
    ensures Wrap(x, n) == x % n
  {
    if x >= n {
      ModOnce(x, n);
    }
  }

  /** One step of the cursor, `(c + 1) % n`, from `Wrap(a, n)` lands on `Wrap(a + 1, n)`. */
  lemma WrapStep(a: nat, n: nat)
    requires a + 1 < 2 * n
    ensures (Wrap(a, n) + 1) % n == Wrap(a + 1, n)
  {
  }

  /** The position the `k`-th selection of a round takes in a pool of `n`
      providers when the round starts with the cursor at `start`. */
  function RoundIndex(n: nat, start: nat, k: nat): (j: nat)
    requires start < n && k < n
    ensures j < n
  {
    Wrap(start + k, n)
  }

  /** The provider handed out by the `k`-th selection of a round that
      starts with the cursor at `start`: `ps[(start + k) % |ps|]`. */
  function Rotation(ps: seq<Provider>, start: nat, k: nat): Provider
    requires start < |ps| && k < |ps|
  {
    ps[RoundIndex(|ps|, start, k)]
  }

  /** The outcome of the `k`-th attempt of a round. */
  function Attempt(ps: seq<Provider>, start: nat, system: string, messages: seq<ChatMessage>, generate: Generator, k: nat)
    : Outcome
    requires start < |ps| && k < |ps|
  {
    generate(Rotation(ps, start, k), system, messages, k)
  }

  /** The outcome each attempt of a full round would have. */
  function Outcomes(ps: seq<Provider>, start: nat, system: string, messages: seq<ChatMessage>, generate: Generator)
    : (os: seq<Outcome>)
    requires CursorIn(ps, start)
    ensures |os| == |ps|
    ensures forall k :: 0 <= k < |ps| ==> os[k] == Attempt(ps, start, system, messages, generate, k)
  {
    seq(|ps|, k requires 0 <= k < |ps| => Attempt(ps, start, system, messages, generate, k))
  }

  /** The names of the providers in the order a round tries them. */
  function RoundNames(ps: seq<Provider>, start: nat): (names: seq<string>)
    requires CursorIn(ps, start)
    ensures |names| == |ps|
    ensures forall k :: 0 <= k < |ps| ==> names[k] == Rotation(ps, start, k).Name()
  {
    seq(|ps|, k requires 0 <= k < |ps| => Rotation(ps, start, k).Name())
  }

  /** The index of the first successful outcome, or `|os|` when none succeeds. */
  function FirstOk(os: seq<Outcome>): (k: nat)
    ensures k <= |os|
    ensures k < |os| ==> os[k].Ok?
    ensures forall j :: 0 <= j < k ==> !os[j].Ok?
  {
    if os == [] then 0
    else if os[0].Ok? then 0
    else 1 + FirstOk(os[1..])
  }

  /** The error note recorded for a failed attempt. */
  function ErrorNote(name: string, o: Outcome): string
    requires !o.Ok?
  {
    if o.RateLimited? then name + ": Rate limited" else name + ": " + o.message
  }

  /** One note per failed attempt, in attempt order. */
  function Notes(names: seq<string>, os: seq<Outcome>): (notes: seq<string>)
    requires |names| == |os|
    requires forall j :: 0 <= j < |os| ==> !os[j].Ok?
    ensures |notes| == |os|
    ensures forall j :: 0 <= j < |os| ==> notes[j] == ErrorNote(names[j], os[j])
  {
    seq(|os|, j requires 0 <= j < |os| => ErrorNote(names[j], os[j]))
  }

  const AllFailedPrefix := "All providers failed: "

  /** What a round gives for the names and outcomes of its attempts. */
  function Decide(names: seq<string>, os: seq<Outcome>): Result<Reply, PoolError>
    requires |names| == |os|
  {
    var k := FirstOk(os);
    if k < |os| then Success(Reply(os[k].text, names[k]))
    else Failure(ProviderError(AllFailedPrefix + Join(Notes(names, os), "; ")))
  }

  /** The result of `generate_with_fallback` on providers `ps` with the cursor at `start`. */
  function Fallback(ps: seq<Provider>, start: nat, system: string, messages: seq<ChatMessage>, generate: Generator)
    : Result<Reply, PoolError>
    requires CursorIn(ps, start)
  {
    Decide(RoundNames(ps, start), Outcomes(ps, start, system, messages, generate))
  }

  /** The number of `generate` calls a round makes: up to and including the
      first success, or every provider once. */
  function AttemptCount(ps: seq<Provider>, start: nat, system: string, messages: seq<ChatMessage>, generate: Generator)
    : (n: nat)
    requires CursorIn(ps, start)
    ensures n <= |ps|
  {
    var os := Outcomes(ps, start, system, messages, generate);
    var k := FirstOk(os);
    if k < |os| then k + 1 else |os|
  }

  /** The notes of the first `i` attempts of a round, all of them failures. */
  function NotesUpTo(ps: seq<Provider>, start: nat, system: string, messages: seq<ChatMessage>, generate: Generator, i: nat)
    : (notes: seq<string>)
    requires start < |ps| && i <= |ps|
    requires forall j :: 0 <= j < i ==> !Attempt(ps, start, system, messages, generate, j).Ok?
    ensures |notes| == i
  {
    if i == 0 then []
    else NotesUpTo(ps, start, system, messages, generate, i - 1)
         + [ErrorNote(Rotation(ps, start, i - 1).Name(), Attempt(ps, start, system, messages, generate, i - 1))]
  }

  /** One more failed attempt adds its note at the end. */
  lemma NotesUpToNext(ps: seq<Provider>, start: nat, system: string, messages: seq<ChatMessage>, generate: Generator,
                      i: nat, provider: Provider, o: Outcome)
    requires start < |ps| && i < |ps|
    requires forall j :: 0 <= j <= i ==> !Attempt(ps, start, system, messages, generate, j).Ok?
    requires provider == Rotation(ps, start, i) && o == Attempt(ps, start, system, messages, generate, i)
    ensures NotesUpTo(ps, start, system, messages, generate, i + 1)
            == NotesUpTo(ps, start, system, messages, generate, i) + [ErrorNote(provider.Name(), o)]
  {
  }

  /** A round whose attempt `i` is the first success returns that attempt's
      text and provider name, after `i + 1` calls. */
  lemma FallbackAt(ps: seq<Provider>, start: nat, system: string, messages: seq<ChatMessage>, generate: Generator, i: nat)
    requires start < |ps| && i < |ps|
    requires Attempt(ps, start, system, messages, generate, i).Ok?
    requires forall j :: 0 <= j < i ==> !Attempt(ps, start, system, messages, generate, j).Ok?
    ensures Fallback(ps, start, system, messages, generate)
            == Success(Reply(Attempt(ps, start, system, messages, generate, i).text, Rotation(ps, start, i).Name()))
    ensures AttemptCount(ps, start, system, messages, generate) == i + 1
  {
    assert FirstOk(Outcomes(ps, start, system, messages, generate)) == i;
  }

  /** A round in which every attempt fails reports the notes of all attempts, after `|ps|` calls. */
  lemma FallbackExhausted(ps: seq<Provider>, start: nat, system: string, messages: seq<ChatMessage>, generate: Generator)
    requires CursorIn(ps, start)
    requires forall j :: 0 <= j < |ps| ==> !Attempt(ps, start, system, messages, generate, j).Ok?
    ensures ps != [] ==>
              Fallback(ps, start, system, messages, generate)
              == Failure(ProviderError(AllFailedPrefix + Join(NotesUpTo(ps, start, system, messages, generate, |ps|), "; ")))
    ensures ps == [] ==> Fallback(ps, start, system, messages, generate) == Failure(ProviderError(AllFailedPrefix))
    ensures AttemptCount(ps, start, system, messages, generate) == |ps|
  {
    var os := Outcomes(ps, start, system, messages, generate);
    var names := RoundNames(ps, start);
    assert FirstOk(os) == |ps|;
    assert Fallback(ps, start, system, messages, generate) == Decide(names, os);
    assert Decide(names, os) == Failure(ProviderError(AllFailedPrefix + Join(Notes(names, os), "; ")));
    if ps != [] {
      NotesUpToAll(ps, start, system, messages, generate, |ps|);
      assert Notes(names, os)[..|ps|] == Notes(names, os);
    } else {
      assert Notes(names, os) == [];
      assert Join(Notes(names, os), "; ") == [];
      assert AllFailedPrefix + [] == AllFailedPrefix;
    }
  }

  lemma {:induction false} NotesUpToAll(ps: seq<Provider>, start: nat, system: string, messages: seq<ChatMessage>, generate: Generator, i: nat)
    requires start < |ps| && i <= |ps|
    requires forall j :: 0 <= j < |ps| ==> !Attempt(ps, start, system, messages, generate, j).Ok?
    ensures NotesUpTo(ps, start, system, messages, generate, i)
            == Notes(RoundNames(ps, start), Outcomes(ps, start, system, messages, generate))[..i]
  {
    if i > 0 {
      NotesUpToAll(ps, start, system, messages, generate, i - 1);
    }
  }

  /** A round takes the provider list rotated to begin at the cursor. */
  lemma RoundIsRotation(ps: seq<Provider>, start: nat)
    requires start < |ps|
    ensures forall k :: 0 <= k < |ps| ==> Rotation(ps, start, k) == (ps[start..] + ps[..start])[k]
  {
    forall k | 0 <= k < |ps|
      ensures Rotation(ps, start, k) == (ps[start..] + ps[..start])[k]
    {
      if start + k < |ps| {
        assert (ps[start..] + ps[..start])[k] == ps[start..][k];
      } else {
        assert (ps[start..] + ps[..start])[k] == ps[..start][k - (|ps| - start)];
      }
    }
  }

  /** The selection of a round that takes position `j`. */
  function RoundStep(n: nat, start: nat, j: nat): (k: nat)
    requires start < n && j < n
    ensures k < n && RoundIndex(n, start, k) == j
  {
    if j >= start then j - start else j + n - start
  }

  /** `n` consecutive selections from a pool of `n` providers take every
      position exactly once: no position twice, and each one (at `RoundStep`). */
  lemma RoundVisitsEachOnce(n: nat, start: nat)
    requires start < n
    ensures forall k1, k2 :: 0 <= k1 < n && 0 <= k2 < n && RoundIndex(n, start, k1) == RoundIndex(n, start, k2) ==> k1 == k2
    ensures forall j :: 0 <= j < n ==> RoundStep(n, start, j) < n && RoundIndex(n, start, RoundStep(n, start, j)) == j
  {
  }

  /** A round ends in a reply exactly when some attempt of it succeeds. */
  lemma FallbackSucceedsIff(ps: seq<Provider>, start: nat, system: string, messages: seq<ChatMessage>, generate: Generator)
    requires CursorIn(ps, start)
    ensures Fallback(ps, start, system, messages, generate).Success?
            <==> exists k :: 0 <= k < |ps| && Attempt(ps, start, system, messages, generate, k).Ok?
  {
    var os := Outcomes(ps, start, system, messages, generate);
    var k := FirstOk(os);
    if k < |os| {
      assert Attempt(ps, start, system, messages, generate, k).Ok?;
    } else {
      assert forall j :: 0 <= j < |ps| ==> !Attempt(ps, start, system, messages, generate, j).Ok?;
    }
  }

  /** When every attempt fails, the error names every provider of the pool. */
  lemma FailureNamesEveryProvider(ps: seq<Provider>, start: nat, system: string, messages: seq<ChatMessage>, generate: Generator)
    requires CursorIn(ps, start)
    requires forall j :: 0 <= j < |ps| ==> !Attempt(ps, start, system, messages, generate, j).Ok?
    ensures Fallback(ps, start, system, messages, generate).Failure?
    ensures forall j :: 0 <= j < |ps| ==> Contains(Fallback(ps, start, system, messages, generate).error.Message(), ps[j].Name())
  {
    FallbackExhausted(ps, start, system, messages, generate);
    if ps != [] {
      forall j | 0 <= j < |ps|
        ensures Contains(Fallback(ps, start, system, messages, generate).error.Message(), ps[j].Name())
      {
        var k := RoundStep(|ps|, start, j);
        FailureNamesAttempt(ps, start, system, messages, generate, k);
      }
    }
  }

  /** The error of a failed round names the provider of its `k`-th attempt. */
  lemma FailureNamesAttempt(ps: seq<Provider>, start: nat, system: string, messages: seq<ChatMessage>, generate: Generator, k: nat)
    requires start < |ps| && k < |ps|
    requires forall j :: 0 <= j < |ps| ==> !Attempt(ps, start, system, messages, generate, j).Ok?
    ensures Fallback(ps, start, system, messages, generate).Failure?
    ensures Contains(Fallback(ps, start, system, messages, generate).error.Message(), Rotation(ps, start, k).Name())
  {
    FallbackExhausted(ps, start, system, messages, generate);
    var os := Outcomes(ps, start, system, messages, generate);
    var names := RoundNames(ps, start);
    assert FirstOk(os) == |os|;
    NotesNameEach(names, os, k);
  }

  /** The all-failed message contains the name of each attempt's provider. */
  lemma NotesNameEach(names: seq<string>, os: seq<Outcome>, k: nat)
    requires |names| == |os| && k < |os|
    requires forall j :: 0 <= j < |os| ==> !os[j].Ok?
    ensures Contains(AllFailedPrefix + Join(Notes(names, os), "; "), names[k])
  {
    var notes := Notes(names, os);
    var joined := Join(notes, "; ");
    var message := AllFailedPrefix + joined;
    var name := names[k];
    var note := notes[k];
    var rest := if os[k].RateLimited? then ": Rate limited" else ": " + os[k].message;
    assert note == name + rest;
    OccursBetween([], name, rest);
    assert [] + name + rest == note;
    JoinHasPart(notes, "; ", k);
    var i: nat :| OccursAt(joined, note, i);
    OccursBetween(AllFailedPrefix, joined, []);
    assert AllFailedPrefix + joined + [] == message;
    OccursWithin(message, joined, note, |AllFailedPrefix|, i);
    OccursWithin(message, note, name, |AllFailedPrefix| + i, 0);
  }

  // ---------------------------------------------------------------------
  // The pool
  // ---------------------------------------------------------------------

  class ProviderPool {
    var providers: seq<Provider>
    var currentIndex: nat

    /** The rotation cursor always indexes a provider, and rests at 0 while the pool is empty. */
    ghost predicate Valid()
      reads this
    {
      CursorIn(providers, currentIndex)
    }

    constructor ()
      ensures Valid() && providers == [] && currentIndex == 0
    {
      providers := [];
      currentIndex := 0;
    }

    /** `add_provider`: append, with no check for duplicates. */
    method AddProvider(p: Provider)
      requires Valid()
      modifies this`providers
      ensures Valid()
      ensures providers == old(providers) + [p]
    {
      providers := providers + [p];
    }

    method AddClaude(apiKey: string, model: string := "claude-sonnet-4-20250514")
      requires Valid()
      modifies this`providers
      ensures Valid()
      ensures providers == old(providers) + [Provider(ClaudeAdapter, DefaultConfig(Claude, apiKey, model))]
    {
      providers := providers + [Provider(ClaudeAdapter, DefaultConfig(Claude, apiKey, model))];
    }

    method AddOpenAI(apiKey: string, model: string := "gpt-4o")
      requires Valid()
      modifies this`providers
      ensures Valid()
      ensures providers == old(providers) + [Provider(OpenAIAdapter, DefaultConfig(OpenAI, apiKey, model))]
    {
      providers := providers + [Provider(OpenAIAdapter, DefaultConfig(OpenAI, apiKey, model))];
    }

    method AddGoogle(apiKey: string, model: string := "gemini-1.5-pro")
      requires Valid()
      modifies this`providers
      ensures Valid()
      ensures providers == old(providers) + [Provider(GoogleAdapter, DefaultConfig(Google, apiKey, model))]
    {
      providers := providers + [Provider(GoogleAdapter, DefaultConfig(Google, apiKey, model))];
    }

    /** `__len__`. */
    function Length(): (n: nat)
      reads this
      ensures n == 0 <==> providers == []
      ensures n == |providers|
    {
      |providers|
    }

    /** `provider_names`: the names in pool order. */
    function ProviderNames(): (names: seq<string>)
      reads this
      ensures |names| == |providers|
      ensures forall i :: 0 <= i < |providers| ==> names[i] == providers[i].Name()
    {
      seq(|providers|, i requires 0 <= i < |providers| reads this => providers[i].Name())
    }

    /** `get_next_provider`: round-robin selection. */
    method GetNextProvider() returns (r: Result<Provider, PoolError>)
      requires Valid()
      modifies this`currentIndex
      ensures Valid()
      ensures providers == [] ==> r == Failure(NoProviders) && currentIndex == old(currentIndex)
      ensures providers != [] ==> r == Success(providers[old(currentIndex)])
      ensures providers != [] ==> currentIndex == (old(currentIndex) + 1) % |providers|
      ensures providers != [] ==> currentIndex == Wrap(old(currentIndex) + 1, |providers|)
    {
      if providers == [] {
        return Failure(NoProviders);
      }
      WrapMod(currentIndex + 1, |providers|);
      var provider := providers[currentIndex];
      currentIndex := (currentIndex + 1) % |providers|;
      return Success(provider);
    }

    /** One step of a round: select the next provider and call it. After
        `i` selections of a round that started at `start`, this is the
        `i`-th attempt of `Outcomes`. */
    method TryNext(system: string, messages: seq<ChatMessage>, generate: Generator, ghost start: nat, i: nat)
      returns (provider: Provider, o: Outcome)
      requires Valid() && start < |providers| && i < |providers|
      requires currentIndex == Wrap(start + i, |providers|)
      modifies this`currentIndex
      ensures Valid() && currentIndex == Wrap(start + i + 1, |providers|)
      ensures provider == Rotation(providers, start, i)
      ensures o == Attempt(providers, start, system, messages, generate, i)
    {
      WrapStep(start + i, |providers|);
      var next := GetNextProvider();
      provider := next.value;
      o := generate(provider, system, messages, i);
    }

    /** `generate_with_fallback`: one attempt per provider at most, following
        the rotation, stopping at the first success. `attempts` counts the
        `generate` calls made. */
    method GenerateWithFallback(system: string, messages: seq<ChatMessage>, generate: Generator)
      returns (r: Result<Reply, PoolError>, ghost attempts: nat)
      requires Valid()
      modifies this`currentIndex
      ensures Valid()
      ensures r == Fallback(providers, old(currentIndex), system, messages, generate)
      ensures attempts == AttemptCount(providers, old(currentIndex), system, messages, generate)
      ensures providers == [] ==> currentIndex == old(currentIndex)
      ensures providers != [] ==> currentIndex == Wrap(old(currentIndex) + attempts, |providers|)
      ensures r.Failure? ==> currentIndex == old(currentIndex)
    {
      ghost var start := currentIndex;
      var ps := providers;
      var errors: seq<string> := [];
      if ps == [] {
        FallbackExhausted(ps, start, system, messages, generate);
        attempts := 0;
        r := Failure(ProviderError(AllFailedPrefix + Join(errors, "; ")));
        return;
      }
      var i := 0;
      while i < |ps|
        invariant 0 <= i <= |ps| && Valid() && providers == ps
        invariant currentIndex == Wrap(start + i, |ps|)
        invariant forall j :: 0 <= j < i ==> !Attempt(ps, start, system, messages, generate, j).Ok?
        invariant errors == NotesUpTo(ps, start, system, messages, generate, i)
      {
        var provider, o := TryNext(system, messages, generate, start, i);
        if o.Ok? {
          FallbackAt(ps, start, system, messages, generate, i);
          attempts := i + 1;
          r := Success(Reply(o.text, provider.Name()));
          return;
        }
        NotesUpToNext(ps, start, system, messages, generate, i, provider, o);
        errors := errors + [ErrorNote(provider.Name(), o)];
        i := i + 1;
      }
      FallbackExhausted(ps, start, system, messages, generate);
      attempts := i;
      r := Failure(ProviderError(AllFailedPrefix + Join(errors, "; ")));
    }
  }
}
