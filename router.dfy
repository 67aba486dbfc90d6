/** The provider-fallback router of backend/main.py: the system-instruction
    table, provider registration at start-up, the first-success search over
    the registered providers, the health summary and the chat endpoint's
    error mapping. Calls into the three vendor SDKs are one abstract
    function, `Sdk`, from a call description to an outcome. */
module Router {
  import opened Config
  import opened Text

  // ---------------------------------------------------------------------
  // System instructions (SYSTEM_PROMPTS)
  // ---------------------------------------------------------------------

  const ChatInstruction := "You are a helpful AI assistant for students and developers. Answer questions clearly and concisely."
  const SummarizeInstruction := "You are an expert summarizer. Provide a concise summary of the following text, capturing the main points."
  const CodeExplainInstruction := "You are a coding tutor. Explain the following code step-by-step for a beginner."
  const GrammarInstruction := "You are a grammar corrector. Correct the grammar of the following text and provide a brief explanation of the changes."

  const SystemPrompts: map<string, string> := map[
    "chat" := ChatInstruction,
    "summarize" := SummarizeInstruction,
    "code_explain" := CodeExplainInstruction,
    "grammar" := GrammarInstruction
  ]

  /** `SYSTEM_PROMPTS.get(mode, SYSTEM_PROMPTS["chat"])`. */
  function SystemInstruction(mode: string): (instruction: string)
    ensures instruction in SystemPrompts.Values
    ensures mode in SystemPrompts ==> instruction == SystemPrompts[mode]
    ensures mode !in SystemPrompts ==> instruction == ChatInstruction
  {
    if mode in SystemPrompts then SystemPrompts[mode] else SystemPrompts["chat"]
  }

  /** A mode outside the table is answered with the chat instruction; each of
      the four known modes gets its own entry. */
  lemma ModeLookup(mode: string)
    ensures mode !in {"chat", "summarize", "code_explain", "grammar"} ==> SystemInstruction(mode) == ChatInstruction
    ensures mode == "chat" ==> SystemInstruction(mode) == ChatInstruction
    ensures mode == "summarize" ==> SystemInstruction(mode) == SummarizeInstruction
    ensures mode == "code_explain" ==> SystemInstruction(mode) == CodeExplainInstruction
    ensures mode == "grammar" ==> SystemInstruction(mode) == GrammarInstruction
  {
  }

  /** The chat instruction is used exactly for "chat" and for unknown modes:
      the four instructions are pairwise different. */
  lemma ChatInstructionIff(mode: string)
    ensures SystemInstruction(mode) == ChatInstruction <==> mode == "chat" || mode !in SystemPrompts
  {
  }

  // ---------------------------------------------------------------------
  // Providers and the SDK boundary
  // ---------------------------------------------------------------------

  /** The three vendors, in the order __init__ tries them. */
  datatype ProviderKind = Groq | HuggingFace | Gemini

  /** The name under which a provider is registered and reported. */
  function Name(kind: ProviderKind): string
  {
    match kind
    case Groq => "Groq"
    case HuggingFace => "Hugging Face"
    case Gemini => "Gemini"
  }

  /** Position in the registration order: Groq first, Gemini last. */
  function Rank(kind: ProviderKind): nat
  {
    match kind
    case Groq => 0
    case HuggingFace => 1
    case Gemini => 2
  }

  /** The environment variable holding each vendor's key. */
  function KeyVariable(kind: ProviderKind): string
  {
    match kind
    case Groq => "GROQ_API_KEY"
    case HuggingFace => "HUGGINGFACE_API_KEY"
    case Gemini => "GEMINI_API_KEY"
  }

  const GroqPlaceholder := "your_groq_api_key_here"
  const HuggingFacePlaceholder := "your_huggingface_api_key_here"

  /** The model identifier each provider function asks for. */
  function ModelId(kind: ProviderKind): string
  {
    match kind
    case Groq => "llama-3.3-70b-versatile"
    case HuggingFace => "meta-llama/Meta-Llama-3-70B-Instruct"
    case Gemini => "gemini-flash-latest"
  }

  /** What is handed to a vendor SDK: Groq gets a system message and a user
      message, Hugging Face and Gemini one composed text prompt. */
  datatype Request =
    | ChatCompletion(system: string, user: string)
    | TextGeneration(text: string)
    | GenerateContent(text: string)

  /** One SDK call: the vendor, the key its client was built with, the model
      and the request. */
  datatype Call = Call(kind: ProviderKind, key: string, model: string, request: Request)

  /** An SDK call either returns text or raises an exception whose `str` is
      `message`. */
  datatype Outcome = Ok(text: string) | Err(message: string)

  /** The vendor SDKs, seen from the router. */
  type Sdk = Call -> Outcome

  /** Whether building a vendor client (`Groq(...)`, `InferenceClient(...)`,
      `genai.configure(...)`) with a given key succeeds. */
  type Construct = (ProviderKind, string) -> bool

  /** One entry of `self.providers`: the vendor and the key its client holds. */
  datatype Provider = Provider(kind: ProviderKind, key: string)

  /** The Hugging Face text prompt of _call_huggingface. */
  function HuggingFacePrompt(instruction: string, prompt: string): (text: string)
    ensures |text| == |instruction| + |prompt| + 19
    ensures StartsWith(text, instruction) && EndsWith(text, "\nAssistant:")
    ensures text[|instruction|..|instruction| + 8] == "\n\nUser: "
    ensures text[|instruction| + 8..|instruction| + 8 + |prompt|] == prompt
  {
    instruction + "\n\nUser: " + prompt + "\nAssistant:"
  }

  /** The Gemini text prompt of _call_gemini. */
  function GeminiPrompt(instruction: string, prompt: string): (text: string)
    ensures |text| == |instruction| + |prompt| + 36
    ensures StartsWith(text, "System Instruction: ") && EndsWith(text, prompt)
    ensures text[20..20 + |instruction|] == instruction
    ensures text[20 + |instruction|..36 + |instruction|] == "\n\nUser Message: "
  {
    "System Instruction: " + instruction + "\n\nUser Message: " + prompt
  }

  /** The same instruction with two different user prompts never yields the
      same provider text: the user's words are recoverable from the prompt. */
  lemma PromptsKeepUserText(instruction: string, p1: string, p2: string)
    requires p1 != p2
    ensures HuggingFacePrompt(instruction, p1) != HuggingFacePrompt(instruction, p2)
    ensures GeminiPrompt(instruction, p1) != GeminiPrompt(instruction, p2)
  {
  }

  /** The SDK call `provider_func(prompt, system_instruction)` makes. */
  function CallFor(p: Provider, prompt: string, instruction: string): (c: Call)
    ensures c.kind == p.kind && c.key == p.key && c.model == ModelId(p.kind)
    ensures p.kind == Groq ==> c.request == ChatCompletion(instruction, prompt)
    ensures p.kind == HuggingFace ==> c.request == TextGeneration(HuggingFacePrompt(instruction, prompt))
    ensures p.kind == Gemini ==> c.request == GenerateContent(GeminiPrompt(instruction, prompt))
  {
    var request :=
      match p.kind
      case Groq => ChatCompletion(instruction, prompt)
      case HuggingFace => TextGeneration(HuggingFacePrompt(instruction, prompt))
      case Gemini => GenerateContent(GeminiPrompt(instruction, prompt));
    Call(p.kind, p.key, ModelId(p.kind), request)
  }

  /** All text a request carries, joined. */
  function RequestText(r: Request): string
  {
    match r
    case ChatCompletion(system, user) => system + user
    case TextGeneration(text) => text
    case GenerateContent(text) => text
  }

  /** Whichever provider is called, the call goes out with that provider's
      own key and model, and its request carries both the system instruction
      and the user's prompt. */
  lemma CallCarriesPromptAndInstruction(p: Provider, prompt: string, instruction: string)
    ensures CallFor(p, prompt, instruction).kind == p.kind
    ensures CallFor(p, prompt, instruction).key == p.key
    ensures CallFor(p, prompt, instruction).model == ModelId(p.kind)
    ensures Contains(RequestText(CallFor(p, prompt, instruction).request), prompt)
    ensures Contains(RequestText(CallFor(p, prompt, instruction).request), instruction)
  {
    var text := RequestText(CallFor(p, prompt, instruction).request);
    ContainsIff(prompt, prompt);
    assert OccursAt(prompt, prompt, 0);
    ContainsIff(instruction, instruction);
    assert OccursAt(instruction, instruction, 0);
    match p.kind
    case Groq =>
      ContainsInContext(instruction, prompt, "", prompt);
      assert instruction + prompt + "" == text;
      ContainsInContext("", instruction, prompt, instruction);
      assert "" + instruction + prompt == text;
    case HuggingFace =>
      ContainsInContext(instruction + "\n\nUser: ", prompt, "\nAssistant:", prompt);
      ContainsInContext("", instruction, "\n\nUser: " + prompt + "\nAssistant:", instruction);
      assert "" + instruction + ("\n\nUser: " + prompt + "\nAssistant:") == text;
    case Gemini =>
      ContainsInContext("System Instruction: " + instruction + "\n\nUser Message: ", prompt, "", prompt);
      assert "System Instruction: " + instruction + "\n\nUser Message: " + prompt + "" == text;
      ContainsInContext("System Instruction: ", instruction, "\n\nUser Message: " + prompt, instruction);
      assert "System Instruction: " + instruction + ("\n\nUser Message: " + prompt) == text;
  }

  // ---------------------------------------------------------------------
  // Registration (AIProviderClient.__init__)
  // ---------------------------------------------------------------------

  /** The key test __init__ applies before building a client: Groq and
      Hugging Face need a set, non-empty key other than their placeholder;
      Gemini only a set, non-empty key. */
  predicate KeyAdmitted(kind: ProviderKind, key: Option<string>)
    ensures KeyAdmitted(kind, key) ==> key.Some? && key.value != ""
    ensures kind == Gemini ==> (KeyAdmitted(kind, key) <==> Truthy(key))
    ensures kind == Groq ==> (KeyAdmitted(kind, key) <==> Truthy(key) && key.value != GroqPlaceholder)
    ensures kind == HuggingFace ==> (KeyAdmitted(kind, key) <==> Truthy(key) && key.value != HuggingFacePlaceholder)
  {
    match kind
    case Groq => Truthy(key) && key.value != GroqPlaceholder
    case HuggingFace => Truthy(key) && key.value != HuggingFacePlaceholder
    case Gemini => Truthy(key)
  }

  /** Whether __init__ registers `kind`: the key passes and the client is
      built without raising. */
  predicate Enabled(env: Env, construct: Construct, kind: ProviderKind)
    ensures Enabled(env, construct, kind) <==>
      KeyVariable(kind) in env && KeyAdmitted(kind, Some(env[KeyVariable(kind)])) &&
      construct(kind, env[KeyVariable(kind)])
  {
    var key := Getenv(env, KeyVariable(kind));
    KeyAdmitted(kind, key) && construct(kind, key.value)
  }

  /** The entry __init__ contributes for one vendor. */
  function Entry(env: Env, construct: Construct, kind: ProviderKind): seq<Provider>
  {
    if Enabled(env, construct, kind) then [Provider(kind, env[KeyVariable(kind)])] else []
  }

  /** The provider list __init__ leaves behind. */
  function Registered(env: Env, construct: Construct): seq<Provider>
  {
    Entry(env, construct, Groq) + Entry(env, construct, HuggingFace) + Entry(env, construct, Gemini)
  }

  /** Providers appear in strictly increasing registration order: a
      subsequence of Groq, Hugging Face, Gemini, each at most once. */
  ghost predicate Prioritized(ps: seq<Provider>)
  {
    forall i, j :: 0 <= i < j < |ps| ==> Rank(ps[i].kind) < Rank(ps[j].kind)
  }

  /** Registration keeps the fixed order Groq, Hugging Face, Gemini. */
  lemma RegisteredInOrder(env: Env, construct: Construct)
    ensures Prioritized(Registered(env, construct))
  {
  }

  /** A vendor is registered exactly when it is enabled, and then with the
      key found in the environment. */
  lemma RegisteredIff(env: Env, construct: Construct, kind: ProviderKind)
    ensures (exists i :: 0 <= i < |Registered(env, construct)| && Registered(env, construct)[i].kind == kind)
            <==> Enabled(env, construct, kind)
    ensures forall i :: 0 <= i < |Registered(env, construct)| && Registered(env, construct)[i].kind == kind ==>
              Registered(env, construct)[i].key == env[KeyVariable(kind)]
  {
    var a, b, c := Entry(env, construct, Groq), Entry(env, construct, HuggingFace), Entry(env, construct, Gemini);
    var ps := Registered(env, construct);
    assert forall k :: 0 <= k < |ps| ==>
      (k < |a| ==> ps[k] == a[k]) &&
      (|a| <= k < |a| + |b| ==> ps[k] == b[k - |a|]) &&
      (|a| + |b| <= k ==> ps[k] == c[k - |a| - |b|]);
    if Enabled(env, construct, kind) {
      var i := match kind case Groq => 0 case HuggingFace => |a| case Gemini => |a| + |b|;
      assert ps[i].kind == kind;
    }
  }

  /** Gemini's placeholder-looking key is still registered: only Groq and
      Hugging Face compare against a placeholder. */
  lemma GeminiSkipsPlaceholderTest(env: Env, construct: Construct, key: string)
    requires Getenv(env, KeyVariable(Gemini)) == Some(key) && key != ""
    requires construct(Gemini, key)
    ensures !KeyAdmitted(Groq, Some(GroqPlaceholder)) && !KeyAdmitted(HuggingFace, Some(HuggingFacePlaceholder))
    ensures KeyAdmitted(Gemini, Some(GroqPlaceholder)) && KeyAdmitted(Gemini, Some(HuggingFacePlaceholder))
    ensures |Registered(env, construct)| > 0
    ensures Registered(env, construct)[|Registered(env, construct)| - 1] == Provider(Gemini, key)
  {
  }

  // ---------------------------------------------------------------------
  // The first-success search (generate)
  // ---------------------------------------------------------------------

  /** The index of the first successful outcome, if there is one. */
  function FirstOk(outs: seq<Outcome>): (k: Option<nat>)
    ensures k.Some? ==> k.value < |outs| && outs[k.value].Ok? && forall j :: 0 <= j < k.value ==> outs[j].Err?
    ensures k.None? ==> forall j :: 0 <= j < |outs| ==> outs[j].Err?
  {
    if outs == [] then None
    else if outs[0].Ok? then Some(0)
    else match FirstOk(outs[1..])
      case None => None
      case Some(k) => Some(k + 1)
  }

  /** Outcomes after the first success never matter: appending providers
      behind a list that already has a success changes nothing. */
  lemma {:induction false} FirstOkIgnoresLater(outs: seq<Outcome>, later: seq<Outcome>)
    requires FirstOk(outs).Some?
    ensures FirstOk(outs + later) == FirstOk(outs)
  {
    var k := FirstOk(outs).value;
    assert (outs + later)[k] == outs[k];
  }

  /** The single error of a failing provider list (an HTTPException). */
  datatype HttpError = HttpError(status: int, detail: string)

  /** What generate can raise. It raises only HTTPExceptions; `Other`
      stands for any other exception the chat endpoint could meet. */
  datatype Raised = HttpException(status: int, detail: string) | Other(message: string)

  /** The generate result on success. */
  datatype Reply = Reply(reply: string, provider: string)

  /** How a failure is classified for the warning it logs. */
  datatype FailureClass = QuotaExceeded | OtherError

  const NoProvidersDetail := "No API providers configured. Please add API keys to .env file."
  const AllFailedPrefix := "All API providers failed. Last error: "

  /** `str(last_error)`, where last_error starts as None. */
  function ErrorText(lastError: Option<string>): string
  {
    match lastError
    case None => "None"
    case Some(message) => message
  }

  const RateLimitKeywords := ["quota", "rate limit", "limit exceeded", "429"]

  /** `any(keyword in text for keyword in keywords)`. */
  predicate AnyKeyword(text: string, keywords: seq<string>)
  {
    |keywords| > 0 && (Contains(text, keywords[0]) || AnyKeyword(text, keywords[1..]))
  }

  /** The quota / rate-limit test on `str(e).lower()`. */
  predicate IsRateLimit(message: string)
    ensures IsRateLimit(message) <==>
      Contains(Lower(message), "quota") || Contains(Lower(message), "rate limit") ||
      Contains(Lower(message), "limit exceeded") || Contains(Lower(message), "429")
  {
    RateLimitKeywordsUnfold(Lower(message));
    AnyKeyword(Lower(message), RateLimitKeywords)
  }

  lemma RateLimitKeywordsUnfold(text: string)
    ensures AnyKeyword(text, RateLimitKeywords) <==>
      Contains(text, "quota") || Contains(text, "rate limit") ||
      Contains(text, "limit exceeded") || Contains(text, "429")
  {
    var k0: seq<string> := RateLimitKeywords;
    var k1: seq<string> := ["rate limit", "limit exceeded", "429"];
    var k2: seq<string> := ["limit exceeded", "429"];
    var k3: seq<string> := ["429"];
    assert k0[0] == "quota" && k0[1..] == k1;
    assert k1[0] == "rate limit" && k1[1..] == k2;
    assert k2[0] == "limit exceeded" && k2[1..] == k3;
    assert k3[0] == "429" && k3[1..] == [];
    assert AnyKeyword(text, k3) <==> Contains(text, "429");
    assert AnyKeyword(text, k2) <==> Contains(text, "limit exceeded") || AnyKeyword(text, k3);
    assert AnyKeyword(text, k1) <==> Contains(text, "rate limit") || AnyKeyword(text, k2);
    assert AnyKeyword(text, k0) <==> Contains(text, "quota") || AnyKeyword(text, k1);
  }

  /** The choice between the two warnings generate logs for a failure. */
  function Classify(message: string): (c: FailureClass)
    ensures c == QuotaExceeded <==> IsRateLimit(message)
    ensures c == OtherError <==> !IsRateLimit(message)
  {
    if IsRateLimit(message) then QuotaExceeded else OtherError
  }

  /** The rate-limit test is blind to letter case and to text around the
      message: a message recognised as a quota error is still one when
      upper-cased parts or context are added. */
  lemma RateLimitInContext(before: string, message: string, after: string)
    requires IsRateLimit(message)
    ensures IsRateLimit(before + message + after)
    ensures IsRateLimit(Lower(message))
  {
    var kw :| kw in RateLimitKeywords && Contains(Lower(message), kw);
    LowerConcat(before + message, after);
    LowerConcat(before, message);
    ContainsInContext(Lower(before), Lower(message), Lower(after), kw);
    assert Lower(before + message + after) == Lower(before) + Lower(message) + Lower(after);
    LowerIdempotent(message);
  }

  /** The keywords are matched as written: "Error 429" is a quota error, a
      message without any keyword is not. */
  lemma RateLimitExamples()
    ensures IsRateLimit("HTTP 429")
    ensures !IsRateLimit("")
  {
    var m := Lower("HTTP 429");
    assert m == "http 429";
    assert OccursAt(m, "429", 5);
    ContainsIff(m, "429");
  }

  class AIProviderClient {
    /** `self.providers`, in priority order. */
    var providers: seq<Provider>

    ghost predicate Valid()
      reads this
    {
      Prioritized(providers)
    }

    /** __init__: try Groq, then Hugging Face, then Gemini, appending each
        whose key passes and whose client is built. */
    constructor (env: Env, construct: Construct)
      ensures providers == Registered(env, construct)
      ensures Valid()
    {
      providers := [];
      var groqKey := Getenv(env, KeyVariable(Groq));
      if KeyAdmitted(Groq, groqKey) {
        if construct(Groq, groqKey.value) {
          providers := providers + [Provider(Groq, groqKey.value)];
        }
      }
      var hfKey := Getenv(env, KeyVariable(HuggingFace));
      if KeyAdmitted(HuggingFace, hfKey) {
        if construct(HuggingFace, hfKey.value) {
          providers := providers + [Provider(HuggingFace, hfKey.value)];
        }
      }
      var geminiKey := Getenv(env, KeyVariable(Gemini));
      if KeyAdmitted(Gemini, geminiKey) {
        if construct(Gemini, geminiKey.value) {
          providers := providers + [Provider(Gemini, geminiKey.value)];
        }
      }
      RegisteredInOrder(env, construct);
    }

    /** What each registered provider would answer to this request. */
    function Outcomes(prompt: string, mode: string, sdk: Sdk): (outs: seq<Outcome>)
      reads this
      ensures |outs| == |providers|
      ensures forall i :: 0 <= i < |providers| ==> outs[i] == sdk(CallFor(providers[i], prompt, SystemInstruction(mode)))
    {
      seq(|providers|, i requires 0 <= i < |providers| reads this =>
        sdk(CallFor(providers[i], prompt, SystemInstruction(mode))))
    }

    /** generate: try the providers in order and return the first reply,
        or raise a 500 error. `attempts` lists the providers invoked, by
        index; `warnings` holds the classification logged for each failure. */
    method Generate(prompt: string, mode: string, sdk: Sdk)
      returns (r: Result<Reply, Raised>, attempts: seq<nat>, warnings: seq<FailureClass>)
      ensures |attempts| <= |providers|
      ensures forall j :: 0 <= j < |attempts| ==> attempts[j] == j
      ensures forall j :: 0 <= j < |attempts| - 1 ==> Outcomes(prompt, mode, sdk)[j].Err?
      ensures |providers| == 0 ==> attempts == [] && r == Failure(HttpException(500, NoProvidersDetail))
      ensures r.Success? <==> FirstOk(Outcomes(prompt, mode, sdk)).Some?
      ensures r.Success? ==>
        var k := FirstOk(Outcomes(prompt, mode, sdk)).value;
        |attempts| == k + 1 && r.value == Reply(Outcomes(prompt, mode, sdk)[k].text, Name(providers[k].kind))
      ensures r.Failure? && |providers| > 0 ==>
        |attempts| == |providers| &&
        r.error == HttpException(500, AllFailedPrefix + Outcomes(prompt, mode, sdk)[|providers| - 1].message)
      ensures |warnings| == (if r.Success? then |attempts| - 1 else |attempts|)
      ensures forall j :: 0 <= j < |warnings| ==> warnings[j] == Classify(Outcomes(prompt, mode, sdk)[j].message)
    {
      var instruction := SystemInstruction(mode);
      if |providers| == 0 {
        return Failure(HttpException(500, NoProvidersDetail)), [], [];
      }
      ghost var outs := Outcomes(prompt, mode, sdk);
      var lastError: Option<string> := None;
      attempts, warnings := [], [];
      var i := 0;
      while i < |providers|
        invariant 0 <= i <= |providers|
        invariant |attempts| == i && forall j :: 0 <= j < i ==> attempts[j] == j
        invariant forall j :: 0 <= j < i ==> outs[j].Err?
        invariant |warnings| == i && forall j :: 0 <= j < i ==> warnings[j] == Classify(outs[j].message)
        invariant lastError == if i == 0 then None else Some(outs[i - 1].message)
      {
        var outcome := sdk(CallFor(providers[i], prompt, instruction));
        attempts := attempts + [i];
        match outcome {
          case Ok(text) =>
            return Success(Reply(text, Name(providers[i].kind))), attempts, warnings;
          case Err(message) =>
            warnings := warnings + [Classify(message)];
            lastError := Some(message);
        }
        i := i + 1;
      }
      r := Failure(HttpException(500, AllFailedPrefix + ErrorText(lastError)));
    }
  }

  /** The chat endpoint's error mapping: an HTTPException passes through,
      any other exception becomes a 500 carrying its text. */
  function AsHttpError(e: Raised): (h: HttpError)
    ensures e.HttpException? ==> h == HttpError(e.status, e.detail)
    ensures e.Other? ==> h.status == 500 && h.detail == e.message
  {
    match e
    case HttpException(status, detail) => HttpError(status, detail)
    case Other(message) => HttpError(500, message)
  }

  /** POST /api/message: generate on the shared client, errors mapped to
      HTTP errors. The reply is the first success; a failure is the 500
      error generate raised, passed through unchanged. */
  method Chat(client: AIProviderClient, message: string, mode: string, sdk: Sdk)
    returns (r: Result<Reply, HttpError>)
    ensures r.Success? <==> FirstOk(client.Outcomes(message, mode, sdk)).Some?
    ensures r.Success? ==>
      var k := FirstOk(client.Outcomes(message, mode, sdk)).value;
      r.value == Reply(client.Outcomes(message, mode, sdk)[k].text, Name(client.providers[k].kind))
    ensures r.Failure? ==>
      r.error == HttpError(500,
        if |client.providers| == 0 then NoProvidersDetail
        else AllFailedPrefix + client.Outcomes(message, mode, sdk)[|client.providers| - 1].message)
  {
    var result, _, _ := client.Generate(message, mode, sdk);
    match result {
      case Success(reply) =>
        r := Success(reply);
      case Failure(e) =>
        r := Failure(AsHttpError(e));
    }
  }

  // ---------------------------------------------------------------------
  // GET /health
  // ---------------------------------------------------------------------

  datatype Health = Health(status: string, providers: seq<string>, totalProviders: nat)

  /** health_check on the shared client. */
  function HealthCheck(client: AIProviderClient): (h: Health)
    reads client
    ensures h.status == "healthy"
    ensures |h.providers| == h.totalProviders == |client.providers|
    ensures forall i :: 0 <= i < |h.providers| ==> h.providers[i] == Name(client.providers[i].kind)
  {
    Health("healthy", seq(|client.providers|, i requires 0 <= i < |client.providers| reads client =>
      Name(client.providers[i].kind)), |client.providers|)
  }

  lemma {:induction false} RankBoundsIndex(ps: seq<Provider>, i: nat)
    requires Prioritized(ps) && i < |ps|
    ensures i <= Rank(ps[i].kind)
  {
    if i > 0 {
      RankBoundsIndex(ps, i - 1);
    }
  }

  /** On a client whose providers keep the registration order, health
      reports at most three providers, with no name twice. */
  lemma HealthNamesDistinct(client: AIProviderClient)
    requires client.Valid()
    ensures HealthCheck(client).totalProviders <= 3
    ensures forall i, j :: 0 <= i < j < |HealthCheck(client).providers| ==>
              HealthCheck(client).providers[i] != HealthCheck(client).providers[j]
  {
    var ps := client.providers;
    if |ps| > 3 {
      RankBoundsIndex(ps, 3);
      assert false;
    }
  }

  /** Right after start-up, health names each enabled vendor and no other. */
  lemma HealthAfterStartup(client: AIProviderClient, env: Env, construct: Construct, kind: ProviderKind)
    requires client.providers == Registered(env, construct)
    ensures Name(kind) in HealthCheck(client).providers <==> Enabled(env, construct, kind)
  {
    RegisteredIff(env, construct, kind);
    var h := HealthCheck(client);
    if Name(kind) in h.providers {
      var i :| 0 <= i < |h.providers| && h.providers[i] == Name(kind);
      assert client.providers[i].kind == kind;
    }
    if Enabled(env, construct, kind) {
      var i :| 0 <= i < |client.providers| && client.providers[i].kind == kind;
      assert h.providers[i] == Name(kind);
    }
  }
}
