/** The `POST` handler of the query route (`src/app/api/query/route.ts`):
    classify the prompt, resolve the companies, dispatch on the category,
    absorb any failure of the dispatch, and always finish with exactly one
    synthesis call.  The chat-completion service, the JSON parser and the
    market-data services are parameters. */
module QueryRoute {
  import opened Text
  import opened ChatTypes
  import opened Prompts
  import opened QueryDispatch
  import opened PromptLayout

  /** The classifier's JSON reply: `{ category, companies, ceos?, topic }`. */
  datatype Intent = Intent(category: string, companies: seq<string>, ceos: Option<seq<string>>, topic: string)

  /** What `JSON.parse` made of the classifier's reply. */
  datatype Parsed = ParsedIntent(intent: Intent) | ParseError(message: string)

  /** A chat-completion call either returns its (trimmed) text or throws
      with a message. */
  datatype Reply = Replied(text: string) | Failed(message: string)

  /** The two synthesis entry points of `src/utils/openAiApi.ts`. */
  datatype SynthesisRequest =
    | Summarize(transcript: Transcript, prompt: string)
    | Extract(data: seq<Transcript>, topic: string, category: string, prompt: string)

  /** The system and user messages of one chat-completion call. */
  datatype ChatRequest = ChatRequest(system: string, user: string)

  /** Which user-message template a synthesis call fills in, and with what. */
  datatype UserTemplate =
    | SummaryTemplate(prompt: string, transcript: Transcript)
    | MetricsTemplate(combinedContent: string, prompt: string)
    | ExtractTemplate(prompt: string, topic: string, combinedContent: string)

  /** The remote calls of one request, in the order they are issued. */
  datatype Call =
    | Classify(user: string)
    | SearchTicker(company: string)
    | MarketData(fetch: FetchCall)
    | Synthesize(request: SynthesisRequest)

  /** Everything outside the handler. */
  datatype Env = Env(
    classify: string -> Reply,
    parse: string -> Parsed,
    search: string -> Fetch<seq<string>>,
    sources: Sources,
    json: Json,
    synthesize: SynthesisRequest -> Reply)

  /** `{ response }`, or `{ error }` with status 500. */
  datatype Response = Answer(response: string) | ServerError(error: string)

  datatype Outcome = Outcome(response: Response, calls: seq<Call>)

  /** The category names offered to the classifier. */
  const Categories := ["Company Info", "CEO Comments", "Earnings Summary",
                       "Financial Metrics", "General Inquiry", "Mixed Query"]

  /** The classifier's system message. */
  function ClassifierSystemMessage(): string
  {
    CategoryPrompt(Categories)
  }

  /** The classifier's user message. */
  function ClassifierRequest(prompt: string): string
  {
    "Categorize this prompt and return the full JSON object: " + prompt
  }

  /** The CEO line of the final prompt, present only when `ceos` is. */
  function CeosLine(ceos: Option<seq<string>>): string
  {
    if ceos.Some? then "CEOs: " + Join(ceos.value, ", ") + "\n" else ""
  }

  /** `finalPrompt` of the `finally` block. */
  function FinalPrompt(prompt: string, intent: Intent): string
  {
    "Prompt: " + prompt + "\nCategory: " + intent.category + "\n" + CeosLine(intent.ceos)
    + "Topic: " + intent.topic
  }

  /** The one synthesis call: a summary for "Earnings Summary", otherwise an
      extraction over a one-element list holding the evidence. */
  function SynthesisFor(prompt: string, intent: Intent, evidence: string): SynthesisRequest
  {
    if intent.category == "Earnings Summary" then Summarize(Transcript(evidence), FinalPrompt(prompt, intent))
    else Extract([Transcript(evidence)], intent.topic, intent.category, prompt)
  }

  /** `data.map(t => t.content).join("\n\n")` of `extractComments`. */
  function CombinedContent(data: seq<Transcript>): string
  {
    Join(TranscriptContents(data), "\n\n")
  }

  /** The user-message choice of `summarizeTranscript` and
      `extractComments`: the metrics template for "Financial Metrics", the
      extraction template for every other category. */
  function UserTemplateFor(request: SynthesisRequest): UserTemplate
  {
    match request
    case Summarize(transcript, prompt) => SummaryTemplate(prompt, transcript)
    case Extract(data, topic, category, prompt) =>
      if category == "Financial Metrics" then MetricsTemplate(CombinedContent(data), prompt)
      else ExtractTemplate(prompt, topic, CombinedContent(data))
  }

  /** The text of a filled-in user template. */
  function UserText(template: UserTemplate): string
  {
    match template
    case SummaryTemplate(prompt, transcript) => SummarizeUserPrompt(prompt, transcript)
    case MetricsTemplate(combinedContent, prompt) => FinancialMetricsPrompt(combinedContent, prompt)
    case ExtractTemplate(prompt, topic, combinedContent) => ExtractCommentsUserPrompt(prompt, topic, combinedContent)
  }

  /** The messages of the synthesis call. */
  function SynthesisMessages(request: SynthesisRequest): ChatRequest
  {
    ChatRequest(if request.Summarize? then SummarizeSystemPrompt() else ExtractCommentsSystemPrompt(),
                UserText(UserTemplateFor(request)))
  }

  function SearchCalls(companies: seq<string>): (calls: seq<Call>)
    ensures |calls| == |companies|
    ensures forall i :: 0 <= i < |companies| ==> calls[i] == SearchTicker(companies[i])
  {
    seq(|companies|, i requires 0 <= i < |companies| => SearchTicker(companies[i]))
  }

  function MarketDataCalls(fetches: seq<FetchCall>): (calls: seq<Call>)
    ensures |calls| == |fetches|
    ensures forall i :: 0 <= i < |fetches| ==> calls[i] == MarketData(fetches[i])
  {
    seq(|fetches|, i requires 0 <= i < |fetches| => MarketData(fetches[i]))
  }

  function Respond(reply: Reply): Response
  {
    if reply.Replied? then Answer(reply.text) else ServerError(reply.message)
  }

  /** What one request produces, stage by stage: classification, ticker
      resolution, the category's dispatch step, and synthesis over the
      evidence left by the inner `catch`. */
  function Handle(prompt: string, env: Env): Outcome
  {
    var classify := [Classify(ClassifierRequest(prompt))];
    var reply := env.classify(ClassifierRequest(prompt));
    if reply.Failed? then Outcome(ServerError(reply.message), classify)
    else
      var parsed := env.parse(reply.text);
      if parsed.ParseError? then Outcome(ServerError(parsed.message), classify)
      else
        var intent := parsed.intent;
        var symbols := ResolveSymbols(intent.companies, env.search);
        var step := Dispatch(intent.category, symbols, prompt, env.sources, env.json);
        var request := SynthesisFor(prompt, intent, EvidenceText(step));
        Outcome(Respond(env.synthesize(request)),
                classify + SearchCalls(intent.companies) + MarketDataCalls(step.fetches) + [Synthesize(request)])
  }

  /** The handler itself: `dataToProcess` starts as "", each case assigns it
      as its last action, Mixed Query pushes its parts into `mixedData`, the
      inner `catch` absorbs a failure and the `finally` block synthesises. */
  method Post(prompt: string, env: Env) returns (response: Response, calls: seq<Call>)
    ensures Outcome(response, calls) == Handle(prompt, env)
  {
    calls := [Classify(ClassifierRequest(prompt))];
    var reply := env.classify(ClassifierRequest(prompt));
    if reply.Failed? {
      response := ServerError(reply.message);
      return;
    }
    var parsed := env.parse(reply.text);
    if parsed.ParseError? {
      response := ServerError(parsed.message);
      return;
    }
    var intent := parsed.intent;
    var category := intent.category;

    calls := calls + SearchCalls(intent.companies);
    var companySymbols := ResolveSymbols(intent.companies, env.search);
    // An empty symbol list is only logged; dispatch goes on.

    var dataToProcess, raised, issued := SwitchOnCategory(category, companySymbols, prompt, env);
    calls := calls + issued;

    if raised && dataToProcess == "No data available" {
      dataToProcess := "";
    }

    var finalPrompt := FinalPrompt(prompt, intent);
    var request := if category == "Earnings Summary" then Summarize(Transcript(dataToProcess), finalPrompt)
                   else Extract([Transcript(dataToProcess)], intent.topic, category, prompt);
    calls := calls + [Synthesize(request)];
    var finalResponse := env.synthesize(request);
    response := if finalResponse.Replied? then Answer(finalResponse.text) else ServerError(finalResponse.message);
  }

  /** The state the `switch` leaves behind agrees with the dispatch step: the
      evidence when it finished, "" and the raised flag when it threw, and
      the fetches it issued. */
  predicate DispatchMatches(category: string, symbols: seq<string>, prompt: string, env: Env,
                            raised: bool, dataToProcess: string, issued: seq<Call>)
  {
    StepMatches(Dispatch(category, symbols, prompt, env.sources, env.json), raised, dataToProcess, issued)
  }

  predicate StepMatches(step: Step, raised: bool, dataToProcess: string, issued: seq<Call>)
  {
    && (raised <==> step.evidence.Raised?)
    && dataToProcess == EvidenceText(step)
    && issued == MarketDataCalls(step.fetches)
  }

  /** The `switch (category)` with the inner `catch`: which fetches are
      issued, and what `dataToProcess` holds afterwards. */
  method SwitchOnCategory(category: string, symbols: seq<string>, prompt: string, env: Env)
    returns (dataToProcess: string, raised: bool, issued: seq<Call>)
    ensures DispatchMatches(category, symbols, prompt, env, raised, dataToProcess, issued)
  {
    var src := env.sources;
    var first := FirstSymbol(symbols);
    dataToProcess, raised := "", false;
    var fetches: seq<FetchCall> := [];
    if category == "CEO Comments" {
      fetches := MultipleTranscriptsCalls(symbols);
      var allComments := CommentBlocks(symbols, src);
      if allComments.None? {
        raised := true;
      } else {
        dataToProcess := Join(allComments.value, "\n\n");
      }
    } else if category == "Earnings Summary" {
      fetches := [FetchLatestTranscript(first)];
      var transcript := src.latestTranscript(first);
      if transcript.Threw? {
        raised := true;
      } else {
        dataToProcess := if transcript.Got? then transcript.value.content else "";
      }
    } else if category == "Financial Metrics" {
      fetches := [FetchFinancialMetrics(first), FetchLatestTranscript(first),
                  FetchIncomeStatement(first), FetchBalanceSheet(first)];
      var metrics := src.financialMetrics(first);
      var transcript := src.latestTranscript(first);
      var income := src.incomeStatement(first);
      var balance := src.balanceSheet(first);
      if metrics.Threw? && income.Threw? && balance.Threw? && transcript.Threw? {
        dataToProcess := "";
      } else if transcript.Missing? {
        raised := true;
      } else {
        dataToProcess := MetricsReport(env.json, metrics, transcript, income, balance);
      }
    } else if category == "General Inquiry" {
      fetches := [FetchMultipleTranscripts(first)];
      var generalTranscripts := src.multipleTranscripts(first);
      if !generalTranscripts.Got? {
        raised := true;
      } else {
        dataToProcess := if |generalTranscripts.value| > 0 then JoinedContents(generalTranscripts.value) else "";
      }
    } else if category == "Mixed Query" {
      dataToProcess, raised, issued := MixedQueryCase(symbols, prompt, env);
      return;
    } else {
      // default: throw new Error("Unrecognized category")
      raised := true;
    }
    issued := MarketDataCalls(fetches);
  }

  /** The "Mixed Query" case: the fetches are awaited one after the other and
      each part is pushed onto `mixedData`; `dataToProcess` is assigned the
      joined parts only at the end. */
  method MixedQueryCase(symbols: seq<string>, prompt: string, env: Env)
    returns (dataToProcess: string, raised: bool, issued: seq<Call>)
    ensures StepMatches(MixedQuery(symbols, prompt, env.sources, env.json), raised, dataToProcess, issued)
  {
    var src := env.sources;
    var first := FirstSymbol(symbols);
    dataToProcess, raised := "", false;
    var mixedData: seq<string> := [];
    var fetches := [FetchLatestTranscript(first)];
    var summaryTranscript := src.latestTranscript(first);
    if summaryTranscript.Threw? {
      raised := true;
    } else {
      mixedData := mixedData + [SummaryPart(summaryTranscript)];
      fetches := fetches + MultipleTranscriptsCalls(symbols);
      var commentsData := CommentBlocks(symbols, src);
      if commentsData.None? {
        raised := true;
      } else {
        mixedData := mixedData + ["Comments:\n" + Join(commentsData.value, "\n\n")];
        assert mixedData == [SummaryPart(summaryTranscript), "Comments:\n" + Join(commentsData.value, "\n\n")];
        if AsksForMetrics(prompt) {
          fetches := fetches + [FetchFinancialMetrics(first)];
          var metricsData := src.financialMetrics(first);
          if metricsData.Threw? {
            raised := true;
          } else {
            mixedData := mixedData + [MetricsPart(env.json, metricsData)];
          }
        }
        if !raised {
          dataToProcess := Join(mixedData, "\n\n");
        }
      }
    }
    issued := MarketDataCalls(fetches);
  }

  // ---------------------------------------------------------------------
  // Properties of the handler

  /** The classifier replied and its reply parsed into an intent. */
  predicate Classified(prompt: string, env: Env)
  {
    var reply := env.classify(ClassifierRequest(prompt));
    reply.Replied? && env.parse(reply.text).ParsedIntent?
  }

  function IntentOf(prompt: string, env: Env): Intent
    requires Classified(prompt, env)
  {
    env.parse(env.classify(ClassifierRequest(prompt)).text).intent
  }

  /** The synthesis request of a classified prompt. */
  function RequestOf(prompt: string, env: Env): SynthesisRequest
    requires Classified(prompt, env)
  {
    var intent := IntentOf(prompt, env);
    var symbols := ResolveSymbols(intent.companies, env.search);
    SynthesisFor(prompt, intent, EvidenceText(Dispatch(intent.category, symbols, prompt, env.sources, env.json)))
  }

  /** The classifier's system message lists the six category names in order,
      joined by ", ", right after its introduction. */
  lemma ClassifierPromptListsCategories()
    ensures ClassifierSystemMessage() == CategoryHead + Join(Categories, ", ") + CategoryTail
  {
    CategoryNamesAreClean();
    CategoryPromptListsCategories(Categories);
  }

  lemma CategoryNamesAreClean()
    ensures forall i :: 0 <= i < |Categories| ==> NoBacktick(Categories[i])
  {
    forall i | 0 <= i < |Categories|
      ensures NoBacktick(Categories[i])
    {
      var name := Categories[i];
      assert name in Categories;
    }
  }

  /** The calls of one request, in order: the classification first; then,
      once the prompt is classified, one ticker search per company name, the
      dispatch's fetches, and exactly one synthesis call, which is last. */
  lemma HandleCallOrder(prompt: string, env: Env)
    ensures var calls := Handle(prompt, env).calls;
            && |calls| >= 1 && calls[0] == Classify(ClassifierRequest(prompt))
            && (!Classified(prompt, env) ==> calls == [Classify(ClassifierRequest(prompt))])
            && (Classified(prompt, env) ==>
                  var companies := IntentOf(prompt, env).companies;
                  && |calls| >= |companies| + 2
                  && calls[1..|companies| + 1] == SearchCalls(companies)
                  && calls[|calls| - 1] == Synthesize(RequestOf(prompt, env))
                  && (forall i :: 0 <= i < |calls| - 1 ==> !calls[i].Synthesize?))
  {
    if Classified(prompt, env) {
      var intent := IntentOf(prompt, env);
      var step := Dispatch(intent.category, ResolveSymbols(intent.companies, env.search), prompt, env.sources, env.json);
      CallsEndWithOneSynthesis(prompt, intent.companies, step.fetches, RequestOf(prompt, env));
    }
  }

  /** The shape of a classified request's calls, for any companies, fetches
      and synthesis request. */
  lemma CallsEndWithOneSynthesis(prompt: string, companies: seq<string>, fetches: seq<FetchCall>,
                                 request: SynthesisRequest)
    ensures var calls := [Classify(ClassifierRequest(prompt))] + SearchCalls(companies)
                         + MarketDataCalls(fetches) + [Synthesize(request)];
            && |calls| >= |companies| + 2
            && calls[1..|companies| + 1] == SearchCalls(companies)
            && calls[|calls| - 1] == Synthesize(request)
            && (forall i :: 0 <= i < |calls| - 1 ==> !calls[i].Synthesize?)
  {
    var before := [Classify(ClassifierRequest(prompt))] + SearchCalls(companies) + MarketDataCalls(fetches);
    var calls := before + [Synthesize(request)];
    assert calls[1..|companies| + 1] == SearchCalls(companies);
    forall i | 0 <= i < |calls| - 1
      ensures !calls[i].Synthesize?
    {
      assert calls[i] == before[i];
      if i > |companies| {
        assert before[i] == MarketDataCalls(fetches)[i - 1 - |companies|];
      }
    }
  }

  /** The request fails with status 500 exactly when classification fails,
      its reply does not parse, or the synthesis call fails; the error carries
      that failure's message.  Otherwise the reply is the synthesis text. */
  lemma HandleResponse(prompt: string, env: Env)
    ensures var response := Handle(prompt, env).response;
            var reply := env.classify(ClassifierRequest(prompt));
            && (reply.Failed? ==> response == ServerError(reply.message))
            && (reply.Replied? && env.parse(reply.text).ParseError? ==>
                  response == ServerError(env.parse(reply.text).message))
            && (Classified(prompt, env) ==> response == Respond(env.synthesize(RequestOf(prompt, env))))
            && (response.Answer? <==>
                  Classified(prompt, env) && env.synthesize(RequestOf(prompt, env)).Replied?)
  {
  }

  /** A dispatch that throws does not fail the request: synthesis still runs,
      over the empty evidence. */
  lemma FailedDispatchSynthesisesEmptyEvidence(prompt: string, env: Env)
    requires Classified(prompt, env)
    requires var intent := IntentOf(prompt, env);
             Dispatch(intent.category, ResolveSymbols(intent.companies, env.search), prompt, env.sources, env.json)
               .evidence.Raised?
    ensures RequestOf(prompt, env) == SynthesisFor(prompt, IntentOf(prompt, env), "")
    ensures Handle(prompt, env).response == Respond(env.synthesize(SynthesisFor(prompt, IntentOf(prompt, env), "")))
  {
  }

  /** Only "Earnings Summary" is summarised, with the final prompt; every
      other category, unknown ones included, goes to extraction with the
      user's own prompt, the topic and the category. */
  lemma SummarizeOnlyForEarnings(prompt: string, intent: Intent, evidence: string)
    ensures SynthesisFor(prompt, intent, evidence).Summarize? <==> intent.category == "Earnings Summary"
    ensures intent.category != "Earnings Summary" ==>
              SynthesisFor(prompt, intent, evidence) == Extract([Transcript(evidence)], intent.topic, intent.category, prompt)
  {
  }

  /** The final prompt with CEO names is the one without, with the line
      "CEOs: <names joined by ", ">\n" inserted before the topic line. */
  lemma FinalPromptCeosLine(prompt: string, intent: Intent, ceos: seq<string>)
    ensures var bare := FinalPrompt(prompt, intent.(ceos := None));
            var k := |"Prompt: " + prompt + "\nCategory: " + intent.category + "\n"|;
            && k <= |bare|
            && FinalPrompt(prompt, intent.(ceos := Some(ceos)))
               == bare[..k] + "CEOs: " + Join(ceos, ", ") + "\n" + bare[k..]
  {
    var head := "Prompt: " + prompt + "\nCategory: " + intent.category + "\n";
    var bare := FinalPrompt(prompt, intent.(ceos := None));
    assert bare == head + ("Topic: " + intent.topic);
    assert bare[..|head|] == head && bare[|head|..] == "Topic: " + intent.topic;
  }

  /** The synthesis call sees the evidence intact: the one-element list of
      `extractComments` combines back to the evidence itself, so the user
      message is the right template filled in with the evidence. */
  lemma SynthesisSeesEvidence(prompt: string, intent: Intent, evidence: string)
    ensures var template := UserTemplateFor(SynthesisFor(prompt, intent, evidence));
            && (intent.category == "Earnings Summary" ==>
                  template == SummaryTemplate(FinalPrompt(prompt, intent), Transcript(evidence)))
            && (intent.category == "Financial Metrics" ==> template == MetricsTemplate(evidence, prompt))
            && (intent.category != "Earnings Summary" && intent.category != "Financial Metrics" ==>
                  template == ExtractTemplate(prompt, intent.topic, evidence))
  {
    CombinedSingle(evidence);
  }

  /** A one-element list combines back to its only content. */
  lemma CombinedSingle(evidence: string)
    ensures CombinedContent([Transcript(evidence)]) == evidence
  {
    assert TranscriptContents([Transcript(evidence)]) == [evidence];
  }
}
