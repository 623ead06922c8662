/** The completion client (services/geminiService.ts): one request to the
    generative-language service per prompt, with a fixed persona and sampling
    configuration, and a fallback text for every way the request can fail.
    The SDK call itself is not modelled: its outcome is a parameter. */
module GeminiService {
  import opened Wrappers

  /** What the key lookup can meet when it inspects the process environment. */
  datatype Env =
    | NoProcess                             // `process` is undefined or has no `env` (a browser bundle)
    | ProcessEnv(apiKey: Option<string>)    // `process.env.API_KEY` is a string or undefined
    | EnvAccessThrows                       // reading `process.env` raises; the error is caught

  /** The settled outcome of the one SDK call: the response's `text`
      (undefined, empty or not), or an exception of any kind. */
  datatype CallOutcome = Returned(text: Option<string>) | Threw

  /** The fixed configuration attached to every request. The sampling
      temperature 0.7 is kept as a count of tenths. */
  datatype GenerateConfig = GenerateConfig(systemInstruction: string, temperatureTenths: nat)

  /** The argument of `ai.models.generateContent`. */
  datatype GenerateRequest = GenerateRequest(model: string, contents: string, config: GenerateConfig)

  /** What one call of the client produces: the reply text and the requests
      it sent to the service, in order; the list stands in for a call counter. */
  datatype Reply = Reply(text: string, calls: seq<GenerateRequest>)

  const MODEL := "gemini-2.5-flash"

  const SYSTEM_INSTRUCTION :=
      "You are the \"Nexus AI Expert\", a specialized financial AI assistant for the Nexus Wealth Management Operating System. \n" +
      "        \n" +
      "        Your Tone:\n" +
      "        - Professional, sophisticated, Wall Street rigor meets Silicon Valley innovation.\n" +
      "        - Concise and high-level.\n" +
      "        - Use terms like \"Alpha\", \"Exposure\", \"Risk-adjusted\", \"Omnibus\", \"Family Office\".\n" +
      "\n" +
      "        Your Goal:\n" +
      "        - Explain how Nexus helps EAMs (External Asset Managers) and Family Offices.\n" +
      "        - If asked about assets, mention we have access to Sequoia, Blackstone, Millennium, etc.\n" +
      "        - If asked about features, mention our \"Hunter\" (Lead Gen), \"Guardian\" (Risk/Comms), and \"Expert\" (Research) modules.\n" +
      "        \n" +
      "        Do not give specific financial advice (e.g., \"buy this stock now\"). Instead, provide strategic rationale or explain how the Nexus platform facilitates the investment process."

  const TEMPERATURE_TENTHS: nat := 7

  const CONFIG := GenerateConfig(SYSTEM_INSTRUCTION, TEMPERATURE_TENTHS)

  const DEMO_MODE_REPLY :=
    "Demo Mode: API Key missing. Please configure your environment to use the live AI Expert."

  const EMPTY_TEXT_REPLY :=
    "I apologize, I am processing complex market data and cannot respond at this moment."

  const HIGH_DEMAND_REPLY :=
    "Nexus AI System is currently experiencing high demand. Please try again shortly."

  /** The key lookup: never fails; the configured key when it is set and
      non-empty, the empty string otherwise. */
  function GetApiKey(env: Env): (key: string)
    ensures key != [] ==> env == ProcessEnv(Some(key))
    ensures env.ProcessEnv? && env.apiKey.Some? && env.apiKey.value != [] ==> key == env.apiKey.value
  {
    match env
    case ProcessEnv(Some(k)) => if k != [] then k else []
    case _ => []
  }

  /** The request sent for a prompt: the prompt alone as contents, no earlier
      turns, and the static model and configuration. */
  function RequestFor(prompt: string): GenerateRequest {
    GenerateRequest(MODEL, prompt, CONFIG)
  }

  /** The text generateExpertResponse resolves to: the demo-mode text without
      a key; otherwise the service's text, or a fallback when that text is
      empty or absent or the call throws. Never empty. */
  function ReplyText(env: Env, outcome: CallOutcome): (text: string)
    ensures text != []
  {
    if GetApiKey(env) == [] then DEMO_MODE_REPLY
    else
      match outcome
      case Returned(Some(t)) => if t != [] then t else EMPTY_TEXT_REPLY
      case Returned(None) => EMPTY_TEXT_REPLY
      case Threw => HIGH_DEMAND_REPLY
  }

  /** The requests generateExpertResponse sends: none without a key, else one,
      for the prompt alone, with the static model and configuration. */
  function SentRequests(env: Env, prompt: string): (rs: seq<GenerateRequest>)
    ensures |rs| == if GetApiKey(env) == [] then 0 else 1
    ensures forall req <- rs :: req.contents == prompt && req.model == MODEL && req.config == CONFIG
  {
    if GetApiKey(env) == [] then [] else [RequestFor(prompt)]
  }

  /** generateExpertResponse: a non-empty reply for every environment, SDK
      outcome and prompt; a request is sent exactly when a key is present,
      and then only one, carrying the prompt and the static configuration. */
  function GenerateExpertResponse(env: Env, outcome: CallOutcome, prompt: string): (r: Reply)
    ensures r.text != []
    ensures |r.calls| == if GetApiKey(env) == [] then 0 else 1
    ensures forall req <- r.calls :: req == RequestFor(prompt)
  {
    Reply(ReplyText(env, outcome), SentRequests(env, prompt))
  }

  /** Without a key the reply is the demo-mode text and nothing is sent. */
  lemma MissingKeyIsDemoMode(env: Env, outcome: CallOutcome, prompt: string)
    requires GetApiKey(env) == []
    ensures GenerateExpertResponse(env, outcome, prompt) == Reply(DEMO_MODE_REPLY, [])
  {
  }

  /** With a key exactly one request is sent, and its contents are the prompt
      and nothing else. */
  lemma KeyedCallIsSingleTurn(env: Env, outcome: CallOutcome, prompt: string)
    requires GetApiKey(env) != []
    ensures GenerateExpertResponse(env, outcome, prompt).calls == [RequestFor(prompt)]
    ensures GenerateExpertResponse(env, outcome, prompt).calls[0].contents == prompt
  {
  }

  /** Every request the client sends, for whatever prompt, environment and
      outcome, names model `gemini-2.5-flash` and carries the same
      configuration: the fixed system instruction and temperature 0.7. */
  lemma RequestConfigIsStatic(e1: Env, o1: CallOutcome, p: string, e2: Env, o2: CallOutcome, q: string)
    ensures forall a <- GenerateExpertResponse(e1, o1, p).calls, b <- GenerateExpertResponse(e2, o2, q).calls ::
      a.model == b.model == "gemini-2.5-flash" && a.config == b.config &&
      a.config.systemInstruction == SYSTEM_INSTRUCTION && a.config.temperatureTenths == 7
  {
  }

  /** Non-empty returned text is passed through verbatim. */
  lemma ReturnedTextIsVerbatim(env: Env, t: string, prompt: string)
    requires GetApiKey(env) != [] && t != []
    ensures GenerateExpertResponse(env, Returned(Some(t)), prompt).text == t
  {
  }

  /** Empty or absent returned text gives the "cannot respond" fallback. */
  lemma EmptyTextFallsBack(env: Env, text: Option<string>, prompt: string)
    requires GetApiKey(env) != []
    requires text == None || text == Some([])
    ensures GenerateExpertResponse(env, Returned(text), prompt).text == EMPTY_TEXT_REPLY
  {
  }

  /** A call that throws gives the "high demand" fallback; no error escapes. */
  lemma ThrowIsCaught(env: Env, prompt: string)
    requires GetApiKey(env) != []
    ensures GenerateExpertResponse(env, Threw, prompt).text == HIGH_DEMAND_REPLY
  {
  }

  /** Every reply is one of the three fixed texts or the service's own
      non-empty text, and the latter only when the service returned it. */
  lemma ReplyIsFallbackOrServiceText(env: Env, outcome: CallOutcome, prompt: string)
    ensures var r := GenerateExpertResponse(env, outcome, prompt);
      r.text in {DEMO_MODE_REPLY, EMPTY_TEXT_REPLY, HIGH_DEMAND_REPLY} ||
      (GetApiKey(env) != [] && outcome == Returned(Some(r.text)))
  {
  }
}
