# finchat-demo in Dafny

A model of the core of finchat-demo, a chat assistant for questions about
listed companies. It has two halves.

The server side is the `POST` handler of `src/app/api/query/route.ts`, which
handles a question in four stages:

1. A chat-completion call classifies the question into a category, a list
   of company names, optional CEO names and a topic.
2. Each company name is resolved to a ticker symbol through a search
   service.
3. The handler dispatches on the category and fetches market data
   (earnings-call transcripts, key metrics, income statements, balance
   sheets) for the symbols. It formats that data into one evidence string.
4. A second chat-completion call answers the question over that evidence.

The prompt builders of `src/helpers/prompts.ts` produce the system messages
of both chat-completion calls and the user message of the synthesis call;
the classifier's user message is built inline in `src/utils/openAiApi.ts`. Each passes its template through `filterData`,
which removes every backtick and then trims the result.

The browser side has three parts:

- The typewriter animation (`useTypewriter`) reveals a new AI answer one
  word at a time.
- The answer layout (`MessageContent`) splits an answer into blank-line
  separated sections, each a header line followed by body lines.
- The read-aloud hook (`useSpeechSynthesis`) keeps one utterance per AI
  answer and a play/pause toggle.

The files are:

- `text.dfy` (`Text`): JavaScript's `split`, `join`, `filter(Boolean)`,
  `includes` and `toLowerCase` on strings, with their laws.
- `chat_types.dfy` (`ChatTypes`): messages, roles and transcripts.
- `prompts.dfy` (`Prompts`): `filterData` and the six prompt builders. The
  literal template text is kept.
- `prompt_texts.dfy` (`PromptTexts`) and `prompt_layout.dfy` (`PromptLayout`):
  where the arguments of each builder land in the built prompt.
- `query_dispatch.dfy` (`QueryDispatch`): ticker resolution, and the
  evidence each category builds from the outcomes of its fetches.
- `query_route.dfy` (`QueryRoute`): the handler. It has two forms:
  - a specification function `Handle`, from the question and the outside
    world to the response and the ordered list of remote calls;
  - a method `Post` with the same control flow as the source (a mutable
    `dataToProcess`, the `switch`, the inner `catch` and the `finally`
    synthesis), proved equal to `Handle`.
- `typewriter.dfy` (`Typewriter`): the hook's state as a class, whose methods
  are the effect and one timer tick.
- `message_content.dfy` (`MessageContent`): the section and line layout.
- `speech.dfy` (`SpeechSynthesis`): the hook's state as a class, whose
  methods are voice loading, the utterance effect and `toggleAudio`.

Everything outside the code is a parameter of the model:

- the chat-completion service;
- `JSON.parse` of the classifier's reply;
- the ticker search;
- the five market-data wrappers of `src/utils/fmpApi.ts`;
- `JSON.stringify`;
- the browser's voice list.

The ticker search and the five market-data wrappers each have one of three
outcomes:

- it threw;
- it resolved to `undefined`: `data[0]` of an empty array for the
  single-item wrappers, or a missing `data` for the ticker search and
  `getMultipleTranscripts` (for those two an empty array is a value);
- it resolved to a value.

A chat-completion call either returns its text or throws with a message.
Parsing the classifier's reply either gives the intent or fails with a
message. `JSON.stringify` and the voice list always give a value.

Behaviours of the code worth knowing:

- **Unknown category.** A category without a `case` does not give a 500.
  This includes "Company Info", which is offered to the classifier but has
  no `case`. The `default` branch's throw is caught by the inner `catch`,
  and the answer is synthesised over an empty evidence string. No
  market-data call is made.
- **CEO Comments and Mixed Query comments.** These fetch the transcripts of
  every symbol with `Promise.all`. One failing symbol therefore rejects the
  whole case, and the evidence is "". Failures are not isolated per symbol.
- **Financial Metrics, empty result.** The evidence is "" by choice only
  when all four fetches threw.
- **Financial Metrics, missing transcript.** A transcript lookup that
  finds nothing gives `undefined`. Reading `.content` on it throws, so the
  evidence is "" even when the other three fetches succeeded.
- **Financial Metrics, printed values.** A metrics, income or balance fetch
  that threw prints as `""`; a transcript fetch that threw prints as
  `undefined`, because `.content` of `""` is `undefined`. An `undefined`
  metrics, income or balance value prints as `undefined`.
- **The "No data available" check.** The inner `catch` tests
  `dataToProcess` against `"No data available"`. That value is never
  assigned, because each case assigns `dataToProcess` only as its last
  action. A failing case therefore always leaves the initial "".
- **Mixed Query fetch order.** Mixed Query awaits its parts one after the
  other. A failing summary fetch stops the comment fetches from being
  issued, and a failing comment fetch stops the metrics fetch.

## Model

| member | source | states |
|---|---|---|
| Text.NonEmpty | src/components/chat-messages/MessageContent.tsx:8 | `filter(Boolean)` keeps exactly the non-empty pieces: every kept piece is non-empty and appears in the input, and every non-empty input piece is kept |
| Text.JoinSplit | src/components/chat-messages/MessageContent.tsx:8 | splitting a text at a separator and joining the pieces with the same separator gives back the text |
| Text.SplitCount | src/components/chat-messages/MessageContent.tsx:8 | `split` yields exactly one piece more than the separators it cuts at, counted leftmost first and without overlap |
| Text.NonEmptyAppend | src/components/chat-messages/MessageContent.tsx:8 | filtering distributes over concatenation, so the kept pieces stay in order |
| Text.ToLower | src/components/chat-messages/useSpeechSynthesis.ts:50 | lower-casing keeps the length and maps each character on its own |
| Prompts.RemoveBackticksRemovesAll | src/helpers/prompts.ts:54 | no backtick is left after removing every backtick with `replaceAll` |
| Prompts.TrimStartDropsLeadingWhitespace | src/helpers/prompts.ts:54 | the leading half of `trim` removes exactly the longest whitespace prefix: the result is a suffix of the input, everything removed is whitespace, and the result does not start with whitespace |
| Prompts.TrimEndDropsTrailingWhitespace | src/helpers/prompts.ts:54 | the trailing half of `trim` removes exactly the longest whitespace suffix |
| Prompts.FilterData | src/helpers/prompts.ts:54 | the result holds no backtick and neither starts nor ends with whitespace |
| Prompts.FilterDataIdempotent | src/helpers/prompts.ts:54 | filtering an already filtered text changes nothing |
| Prompts.FilterDataAround | src/helpers/prompts.ts:54 | a backtick-free middle that `trim` cannot reach comes out of `filterData` intact, between the filtered lead and the filtered rest |
| Prompts.CategoryPrompt | src/helpers/prompts.ts:9-18 | the classifier's system prompt is backtick-free and trimmed |
| Prompts.SummarizeSystemPrompt | src/helpers/prompts.ts:20-27 | the summariser's system prompt is backtick-free and trimmed |
| Prompts.SummarizeUserPrompt | src/helpers/prompts.ts:29-31 | the summariser's user prompt is backtick-free and trimmed |
| Prompts.ExtractCommentsSystemPrompt | src/helpers/prompts.ts:33-36 | the extractor's system prompt is backtick-free and trimmed |
| Prompts.FinancialMetricsPrompt | src/helpers/prompts.ts:38-41 | the metrics user prompt is backtick-free and trimmed |
| Prompts.ExtractCommentsUserPrompt | src/helpers/prompts.ts:43-50 | the extractor's user prompt is backtick-free and trimmed |
| PromptLayout.CategoryPromptListsCategories | src/helpers/prompts.ts:9-12 | for backtick-free names, the classifier prompt is the filtered introduction, then the names joined by ", " unchanged, then the filtered rules |
| PromptLayout.SummarizeUserPromptLayout | src/helpers/prompts.ts:29-31 | for a backtick-free transcript, the summariser's user prompt holds the transcript verbatim after the transcript marker, between the filtered question and the closing instructions |
| PromptLayout.FinancialMetricsPromptLayout | src/helpers/prompts.ts:38-41 | for a backtick-free question and data, the metrics prompt starts with the lead-in and the question, followed by the data verbatim and then the closing instructions |
| PromptLayout.ExtractCommentsUserPromptLayout | src/helpers/prompts.ts:43-50 | for a backtick-free question and topic, the extractor's prompt starts with the question followed by the quoted topic |
| QueryDispatch.Ticker | src/app/api/query/route.ts:23-38 | the ticker is the first search match's symbol; it is "" when the search fails or finds nothing |
| QueryDispatch.ResolvedSymbolsAreTheFoundTickers | src/app/api/query/route.ts:73-78 | the resolved symbols are never "" and are no more than the companies; a symbol is resolved exactly when some company's lookup found it |
| QueryDispatch.ResolveSymbolsKeepsOrder | src/app/api/query/route.ts:73-78 | resolution works company by company: resolving a concatenation concatenates the results |
| QueryDispatch.FirstSymbol | src/app/api/query/route.ts:113 | `companySymbols[0]` is defined exactly when there is a symbol, and is the first one |
| QueryDispatch.CommentBlocks | src/app/api/query/route.ts:98-107 | the blocks exist exactly when every symbol's transcript fetch succeeded, and then hold one block per symbol, in order |
| QueryDispatch.SymbolBlockShape | src/app/api/query/route.ts:101-105 | a symbol's block starts with the symbol, and is just "SYMBOL: " exactly when the symbol has no transcript |
| QueryDispatch.CeoCommentsEvidence | src/app/api/query/route.ts:96-109 | "CEO Comments" fetches once per symbol; when all succeed the evidence is the per-symbol blocks joined by blank lines, otherwise it is "" |
| QueryDispatch.CeoCommentsWithoutSymbols | src/app/api/query/route.ts:98-108 | with no symbol, "CEO Comments" fetches nothing and builds "" |
| QueryDispatch.EarningsSummaryEvidence | src/app/api/query/route.ts:111-117 | "Earnings Summary" makes one latest-transcript fetch for the first symbol; the evidence is that transcript's content, or "" when it failed or found nothing |
| QueryDispatch.MetricsReportStartsWithHeader | src/app/api/query/route.ts:136-153 | the metrics report starts with its "Key Financial Metrics" header |
| QueryDispatch.FinancialMetricsEvidence | src/app/api/query/route.ts:119-155 | the "Financial Metrics" evidence is "" exactly when all four fetches threw or the transcript lookup found nothing; otherwise it is the four-section report |
| QueryDispatch.GeneralInquiryEvidence | src/app/api/query/route.ts:157-166 | "General Inquiry" evidence is the first symbol's transcripts joined by blank lines, or "" when that fetch fails |
| QueryDispatch.MixedQueryIsSequential | src/app/api/query/route.ts:168-205 | "Mixed Query" first fetches the summary transcript, stops there if it threw, then fetches once per symbol; the metrics fetch is issued exactly when both earlier stages succeeded and the question asks for numbers; after a successful summary fetch the log is exactly the summary fetch, the per-symbol fetches and, when issued, the metrics fetch |
| QueryDispatch.MixedQueryEvidence | src/app/api/query/route.ts:168-208 | "Mixed Query" evidence is the summary and comment parts joined by a blank line, followed by the metrics part when the question asks for numbers; it is "" when the summary fetch, any symbol's comment fetch or the metrics fetch throws |
| QueryDispatch.UnknownCategoryFetchesNothing | src/app/api/query/route.ts:210-212 | a category without a `case` throws before any market-data call, leaving the evidence "" |
| QueryRoute.Post | src/app/api/query/route.ts:59-258 | the handler's response and its ordered remote calls are those of the specification `Handle` |
| QueryRoute.SwitchOnCategory | src/app/api/query/route.ts:95-213 | the `switch` raises exactly when the category's case throws; it leaves the case's evidence and issues the case's fetches in order |
| QueryRoute.MixedQueryCase | src/app/api/query/route.ts:168-208 | the Mixed Query branch, with its pushes into `mixedData`, builds the evidence and issues the calls of `MixedQuery` |
| QueryRoute.CategoryNamesAreClean | src/app/api/query/route.ts:43-52 | no category name contains a backtick |
| QueryRoute.ClassifierPromptListsCategories | src/app/api/query/route.ts:41-53 | the classifier's system message lists the six category names, joined by ", ", between the filtered introduction and rules |
| QueryRoute.HandleCallOrder | src/app/api/query/route.ts:59-258 | the first call classifies; a failed classification or parse makes no other call; otherwise the ticker searches follow in company order, and synthesis is the last call and the only one |
| QueryRoute.HandleResponse | src/app/api/query/route.ts:63-258 | a classifier failure or a parse error answers 500 with its message; otherwise the response is the synthesis reply, or a 500 when synthesis fails; the answer is a success exactly when classification, parsing and synthesis all succeed |
| QueryRoute.FailedDispatchSynthesisesEmptyEvidence | src/app/api/query/route.ts:214-244 | when the category's case throws, the failure is absorbed and synthesis runs over "" |
| QueryRoute.SummarizeOnlyForEarnings | src/app/api/query/route.ts:236-244 | the summariser is used exactly for "Earnings Summary"; every other category goes to the extractor with the evidence as its single transcript |
| QueryRoute.FinalPromptCeosLine | src/app/api/query/route.ts:225-227 | with CEO names, the final prompt is the prompt without them plus a "CEOs: a, b" line inserted after the category line |
| QueryRoute.SynthesisSeesEvidence | src/utils/openAiApi.ts:50-102 | the summariser's user template gets the final prompt and the evidence; "Financial Metrics" uses the metrics template over the evidence; every other category uses the extraction template with the prompt, topic and evidence |
| QueryRoute.CombinedSingle | src/utils/openAiApi.ts:78 | combining the single transcript of a synthesis call gives back the evidence unchanged |
| Typewriter.TypewriterState.constructor | src/components/chat-messages/useTypewriter.ts:9-12 | every message is first shown in full, with no typing session |
| Typewriter.TypewriterState.OnMessages | src/components/chat-messages/useTypewriter.ts:15-52 | no new message changes nothing; a new non-AI message shows every message at once; a new AI message shows an empty entry after the earlier messages and starts a session over its space-separated words; the typed text always equals the words typed so far |
| Typewriter.TypewriterState.TypeNextWord | src/components/chat-messages/useTypewriter.ts:35-45 | while words remain, one more word is typed and the typed text is shown as the last entry; afterwards nothing changes |
| Typewriter.TypewriterState.TypeRemaining | src/components/chat-messages/useTypewriter.ts:35-50 | running the timer chain to its end takes one step per remaining word and leaves every word typed |
| Typewriter.TypeWordsSnoc | src/components/chat-messages/useTypewriter.ts:38 | typing one more word extends the typed text by one step |
| Typewriter.TypeWordsAfterText | src/components/chat-messages/useTypewriter.ts:38 | once something is typed, each further word follows exactly one space |
| Typewriter.TypedPrefixIsJoin | src/components/chat-messages/useTypewriter.ts:35-45 | when the first word is non-empty, the text after k steps is the first k words joined by spaces |
| Typewriter.TypedSplitDropsLeadingSpaces | src/components/chat-messages/useTypewriter.ts:30-45 | typing every word of `content.split(" ")` reproduces the content without its leading spaces |
| MessageContent.Layout | src/components/chat-messages/MessageContent.tsx:16-18 | a section has a header exactly when it has a non-empty line; the header followed by the body lines gives back those lines |
| MessageContent.Render | src/components/chat-messages/MessageContent.tsx:14-34 | one laid-out section per non-empty section, in order |
| MessageContent.SectionsRebuildContent | src/components/chat-messages/MessageContent.tsx:8 | when no blank-line piece is empty, joining the sections with blank lines gives back the answer |
| MessageContent.EmptyContentHasNoSections | src/components/chat-messages/MessageContent.tsx:8-14 | an empty answer renders no section |
| MessageContent.SingleLineContent | src/components/chat-messages/MessageContent.tsx:8-18 | a non-empty answer without a line break is one section whose header is the whole answer, with an empty body |
| MessageContent.SectionCountBound | src/components/chat-messages/MessageContent.tsx:8 | there are at most as many sections as blank-line separators `split` cuts at, plus one, and exactly that many when no piece is empty |
| SpeechSynthesis.FindPreferred | src/components/chat-messages/useSpeechSynthesis.ts:48-51 | `find` returns the first voice named like Samantha, Zira or "female", and none exactly when no voice matches |
| SpeechSynthesis.ChooseVoice | src/components/chat-messages/useSpeechSynthesis.ts:48-52 | the voice is preferred when any voice is; otherwise it is the first voice; it is absent exactly when there is no voice |
| SpeechSynthesis.ChosenVoiceIsFirstPreferred | src/components/chat-messages/useSpeechSynthesis.ts:48-52 | when voice k is the first preferred one, voice k is chosen |
| SpeechSynthesis.Resized | src/components/chat-messages/useSpeechSynthesis.ts:58 | one flag per message; an existing flag is kept, a new one is off |
| SpeechSynthesis.ResizedIsStable | src/components/chat-messages/useSpeechSynthesis.ts:58 | resizing twice to the same count is resizing once, and resizing never turns a flag on |
| SpeechSynthesis.Toggled | src/components/chat-messages/useSpeechSynthesis.ts:75 | the flag at the index flips and every other flag is kept |
| SpeechSynthesis.ToggleTwiceRestores | src/components/chat-messages/useSpeechSynthesis.ts:75 | toggling the same message twice restores every flag |
| SpeechSynthesis.ToggleChangesOnlyIndex | src/components/chat-messages/useSpeechSynthesis.ts:75 | a toggle changes a flag exactly at its index |
| SpeechSynthesis.SpeechState.constructor | src/components/chat-messages/useSpeechSynthesis.ts:14-18 | no utterance, no flag, voices not loaded, no engine call |
| SpeechSynthesis.SpeechState.LoadVoices | src/components/chat-messages/useSpeechSynthesis.ts:23-26 | voices count as loaded once any voice is reported, and never become unloaded |
| SpeechSynthesis.SpeechState.OnMessages | src/components/chat-messages/useSpeechSynthesis.ts:36-59 | an existing utterance is never replaced; new ones are made only for AI messages, from their content; afterwards every AI message has one; the flags are resized to the message count |
| SpeechSynthesis.SpeechState.ToggleAudio | src/components/chat-messages/useSpeechSynthesis.ts:62-76 | without an utterance nothing happens; otherwise a playing message is paused, any other is cancelled and spoken, and only its flag flips |

## Left out

- The network clients (axios, the OpenAI client) and their URLs, keys and
  token limits are not modelled. Their outcomes are parameters.
- `req.json()` body parsing is not modelled. The question is an input.
- The logger and `console` output are not modelled; they have no effect on
  results.
- The output of `JSON.stringify` and `JSON.parse` is not modelled. Both are
  parameters. Only the `undefined` case of `JSON.stringify` is written out.
- A classifier reply that parses but lacks `companies` is not modelled
  separately. It throws on `.map` and reaches the same 500 path as a parse
  error.
- `Promise.all` is modelled sequentially. Its calls are listed in array
  order, and one rejection rejects the whole.
- Timers and `TYPEWRITER_DELAY_MS` are not modelled. Each timer tick is one
  `TypeNextWord` call.
- Typewriter.TypewriterState.OnMessages: models only the latest typing
  session. The source leaves timers of an earlier AI message running, and
  they keep writing until that session's words run out.
- The speech volume and rate are floating-point constants and are not
  modelled.
- The `onvoiceschanged` registration and its cleanup are not modelled.
- `getVoices()` is assumed to report the same voices throughout one effect
  run.
- The speech engine itself is not modelled, only the calls made on it.
- Text.ToLower: only ASCII letters are lowered, because Unicode case
  mapping is not modelled. This matters only for voice names and questions
  with non-ASCII capitals.
- The prompt wording is kept as literal text. Only structural facts about it
  are proved: no backticks, trimmed, and where the arguments land.
- The JSX markup and styling are not modelled. `ChatInput`, `page`, `layout`,
  `AudioControls` and the rendering in `ChatMessage` are not part of this
  model.
