/** The evidence dispatcher of the query route (`src/app/api/query/route.ts`):
    how company names become ticker symbols, and how each category turns the
    outcomes of the market-data fetches into one evidence string.  The remote
    services are given as functions from their argument to an outcome. */
module QueryDispatch {
  import opened Text
  import opened ChatTypes

  /** What one awaited market-data wrapper produced: it threw (every wrapper
      rethrows on a network error), it resolved to `undefined` (`data[0]` of an
      empty array, or a missing `data`), or it resolved to a value. */
  datatype Fetch<T> = Threw | Missing | Got(value: T)

  /** A metrics, income-statement or balance-sheet object; only its
      serialisation is ever used. */
  datatype Record = Record(fields: seq<(string, string)>)

  /** The JavaScript values handed to `JSON.stringify`. */
  datatype JsValue = JsUndefined | JsString(text: string) | JsObject(record: Record)

  /** `JSON.stringify(v, null, 2)` and `JSON.stringify(v)` on defined values;
      their output is not modelled. */
  datatype Json = Json(pretty: JsValue -> string, compact: Record -> string)

  /** The market-data wrappers of `src/utils/fmpApi.ts`, keyed by the symbol
      they are called with (`None` for `companySymbols[0]` of an empty list). */
  datatype Sources = Sources(
    latestTranscript: Option<string> -> Fetch<Transcript>,
    multipleTranscripts: Option<string> -> Fetch<seq<Transcript>>,
    financialMetrics: Option<string> -> Fetch<Record>,
    incomeStatement: Option<string> -> Fetch<Record>,
    balanceSheet: Option<string> -> Fetch<Record>)

  /** One call into the market-data wrappers, in the order it is issued. */
  datatype FetchCall =
    | FetchLatestTranscript(symbol: Option<string>)
    | FetchMultipleTranscripts(symbol: Option<string>)
    | FetchFinancialMetrics(symbol: Option<string>)
    | FetchIncomeStatement(symbol: Option<string>)
    | FetchBalanceSheet(symbol: Option<string>)

  /** How the selected case ended: it assigned the evidence as its last
      action, or something in it threw. */
  datatype Evidence = Built(text: string) | Raised

  datatype Step = Step(evidence: Evidence, fetches: seq<FetchCall>)

  // ---------------------------------------------------------------------
  // Ticker resolution

  /** `getTickerFromCompanyName`: the first search match's symbol, or "" when
      there is no match or the search fails. */
  function Ticker(search: Fetch<seq<string>>): (ticker: string)
    ensures search.Got? && |search.value| > 0 ==> ticker == search.value[0]
    ensures !search.Got? || |search.value| == 0 ==> ticker == ""
  {
    match search
    case Got(matches) => if |matches| > 0 then matches[0] else ""
    case _ => ""
  }

  function Tickers(companies: seq<string>, search: string -> Fetch<seq<string>>): (tickers: seq<string>)
    ensures |tickers| == |companies|
    ensures forall i :: 0 <= i < |companies| ==> tickers[i] == Ticker(search(companies[i]))
  {
    seq(|companies|, i requires 0 <= i < |companies| => Ticker(search(companies[i])))
  }

  /** `companySymbols`: the tickers of the companies with the empty ones
      filtered out. */
  function ResolveSymbols(companies: seq<string>, search: string -> Fetch<seq<string>>): seq<string>
  {
    NonEmpty(Tickers(companies, search))
  }

  /** The resolved symbols are exactly the non-empty tickers: none is empty,
      none is made up, and every non-empty ticker is kept. */
  lemma ResolvedSymbolsAreTheFoundTickers(companies: seq<string>, search: string -> Fetch<seq<string>>)
    ensures var symbols := ResolveSymbols(companies, search);
            && |symbols| <= |companies|
            && (forall i :: 0 <= i < |symbols| ==> symbols[i] != "")
            && (forall s :: s in symbols <==>
                  exists i :: 0 <= i < |companies| && s == Ticker(search(companies[i])) && s != "")
  {
    var tickers := Tickers(companies, search);
    forall s
      ensures s in NonEmpty(tickers) <==>
              exists i :: 0 <= i < |companies| && s == Ticker(search(companies[i])) && s != ""
    {
      if s in tickers {
        var i :| 0 <= i < |tickers| && tickers[i] == s;
        assert s == Ticker(search(companies[i]));
      }
    }
  }

  /** Resolution keeps the order of the company list: it works company list
      segment by segment. */
  lemma {:induction false} ResolveSymbolsKeepsOrder(a: seq<string>, b: seq<string>, search: string -> Fetch<seq<string>>)
    ensures ResolveSymbols(a + b, search) == ResolveSymbols(a, search) + ResolveSymbols(b, search)
  {
    assert Tickers(a + b, search) == Tickers(a, search) + Tickers(b, search);
    NonEmptyAppend(Tickers(a, search), Tickers(b, search));
  }

  /** `companySymbols[0]`, which is `undefined` for an empty list. */
  function FirstSymbol(symbols: seq<string>): (first: Option<string>)
    ensures first.Some? <==> |symbols| > 0
    ensures first.Some? ==> first.value == symbols[0]
  {
    if |symbols| > 0 then Some(symbols[0]) else None
  }

  // ---------------------------------------------------------------------
  // Blocks built from transcripts

  /** `transcripts.map(t => t.content).join("\n\n")` */
  function JoinedContents(transcripts: seq<Transcript>): string
  {
    Join(TranscriptContents(transcripts), "\n\n")
  }

  /** The text produced for one symbol in the CEO Comments and Mixed Query
      cases. */
  function SymbolBlock(symbol: string, transcripts: seq<Transcript>): string
  {
    if |transcripts| > 0 then symbol + " transcripts:\n" + JoinedContents(transcripts)
    else symbol + ": "
  }

  /** `getMultipleTranscripts` is called for every symbol; reading `.length`
      of a result throws unless it is an array. */
  function MultipleTranscriptsCalls(symbols: seq<string>): (calls: seq<FetchCall>)
    ensures |calls| == |symbols|
    ensures forall i :: 0 <= i < |symbols| ==> calls[i] == FetchMultipleTranscripts(Some(symbols[i]))
  {
    seq(|symbols|, i requires 0 <= i < |symbols| => FetchMultipleTranscripts(Some(symbols[i])))
  }

  /** The per-symbol blocks awaited with `Promise.all`: one block per symbol,
      in symbol order, or nothing at all when any one lookup fails. */
  function CommentBlocks(symbols: seq<string>, src: Sources): (blocks: Option<seq<string>>)
    ensures blocks.Some? <==>
            forall i :: 0 <= i < |symbols| ==> src.multipleTranscripts(Some(symbols[i])).Got?
    ensures blocks.Some? ==>
            && |blocks.value| == |symbols|
            && forall i :: 0 <= i < |symbols| ==>
                 blocks.value[i] == SymbolBlock(symbols[i], src.multipleTranscripts(Some(symbols[i])).value)
    decreases |symbols|
  {
    if |symbols| == 0 then Some([])
    else
      var last := symbols[|symbols| - 1];
      var front := CommentBlocks(symbols[..|symbols| - 1], src);
      match src.multipleTranscripts(Some(last))
      case Got(transcripts) =>
        if front.Some? then Some(front.value + [SymbolBlock(last, transcripts)]) else None
      case _ => None
  }

  // ---------------------------------------------------------------------
  // The cases of the switch

  /** "CEO Comments": the per-symbol blocks joined by blank lines. */
  function CeoComments(symbols: seq<string>, src: Sources): Step
  {
    var blocks := CommentBlocks(symbols, src);
    Step(if blocks.Some? then Built(Join(blocks.value, "\n\n")) else Raised,
         MultipleTranscriptsCalls(symbols))
  }

  /** "Earnings Summary": the first symbol's latest transcript, or "". */
  function EarningsSummary(symbols: seq<string>, src: Sources): Step
  {
    var first := FirstSymbol(symbols);
    var evidence :=
      match src.latestTranscript(first)
      case Threw => Raised
      case Missing => Built("")
      case Got(transcript) => Built(transcript.content);
    Step(evidence, [FetchLatestTranscript(first)])
  }

  /** What a template literal prints for `JSON.stringify(v, null, 2)`:
      `undefined` prints as "undefined". */
  function Printed(json: Json, v: JsValue): string
  {
    if v.JsUndefined? then "undefined" else json.pretty(v)
  }

  /** The value bound by `getX(...).catch(() => "")`. */
  function Caught(f: Fetch<Record>): JsValue
  {
    match f
    case Threw => JsString("")
    case Missing => JsUndefined
    case Got(record) => JsObject(record)
  }

  /** `_transcript.content`, where `_transcript` is "" after a failed fetch. */
  function CaughtContent(f: Fetch<Transcript>): JsValue
    requires !f.Missing?
  {
    match f
    case Threw => JsUndefined
    case Got(transcript) => JsString(transcript.content)
  }

  const MetricsHeader := "Key Financial Metrics:\n"

  /** The later headers follow a line break and the template's indentation. */
  const IncomeHeader := "                         Income Statement:\n"

  const BalanceHeader := "                         Balance Sheet:\n"

  const TranscriptHeader := "                         Transcipt that we can use : \n"

  /** The formatted report of the "Financial Metrics" case, its sections in
      the order metrics, income statement, balance sheet, transcript. */
  function MetricsReport(json: Json, metrics: Fetch<Record>, transcript: Fetch<Transcript>,
                         income: Fetch<Record>, balance: Fetch<Record>): string
    requires !transcript.Missing?
  {
    MetricsHeader + Printed(json, Caught(metrics)) + "\n\n\n"
    + IncomeHeader + Printed(json, Caught(income)) + "\n\n\n"
    + BalanceHeader + Printed(json, Caught(balance)) + "\n"
    + TranscriptHeader + Printed(json, CaughtContent(transcript))
  }

  /** "Financial Metrics": four fetches for the first symbol, each failure
      caught as "". Only when all four failed is the evidence "" by choice;
      an `undefined` transcript makes `_transcript.content` throw. */
  function FinancialMetrics(symbols: seq<string>, src: Sources, json: Json): Step
  {
    var first := FirstSymbol(symbols);
    var metrics := src.financialMetrics(first);
    var transcript := src.latestTranscript(first);
    var income := src.incomeStatement(first);
    var balance := src.balanceSheet(first);
    var evidence :=
      if metrics.Threw? && income.Threw? && balance.Threw? && transcript.Threw? then Built("")
      else if transcript.Missing? then Raised
      else Built(MetricsReport(json, metrics, transcript, income, balance));
    Step(evidence, [FetchFinancialMetrics(first), FetchLatestTranscript(first),
                    FetchIncomeStatement(first), FetchBalanceSheet(first)])
  }

  /** "General Inquiry": the first symbol's transcripts joined by blank lines. */
  function GeneralInquiry(symbols: seq<string>, src: Sources): Step
  {
    var first := FirstSymbol(symbols);
    var evidence :=
      match src.multipleTranscripts(first)
      case Got(transcripts) => Built(if |transcripts| > 0 then JoinedContents(transcripts) else "")
      case _ => Raised;
    Step(evidence, [FetchMultipleTranscripts(first)])
  }

  /** The Mixed Query metrics rule: the lowercased prompt mentions
      "how many", "revenue" or "spending". */
  predicate AsksForMetrics(prompt: string)
  {
    var lower := ToLower(prompt);
    Contains(lower, "how many") || Contains(lower, "revenue") || Contains(lower, "spending")
  }

  /** The summary part of a Mixed Query. */
  function SummaryPart(transcript: Fetch<Transcript>): string
    requires !transcript.Threw?
  {
    if transcript.Got? then "Earnings Summary:\n" + transcript.value.content else ""
  }

  /** The metrics part of a Mixed Query. */
  function MetricsPart(json: Json, metrics: Fetch<Record>): string
    requires !metrics.Threw?
  {
    if metrics.Got? then "Metrics:\n" + json.compact(metrics.value)
    else "No financial metrics available"
  }

  /** "Mixed Query": the parts of `mixedData` in push order, joined by blank
      lines; the fetches are awaited one after the other, so a failure stops
      the later ones from being issued. */
  function MixedQuery(symbols: seq<string>, prompt: string, src: Sources, json: Json): Step
  {
    var first := FirstSymbol(symbols);
    var summary := src.latestTranscript(first);
    var afterSummary := [FetchLatestTranscript(first)];
    if summary.Threw? then Step(Raised, afterSummary)
    else
      var blocks := CommentBlocks(symbols, src);
      var afterComments := afterSummary + MultipleTranscriptsCalls(symbols);
      if blocks.None? then Step(Raised, afterComments)
      else
        var parts := [SummaryPart(summary), "Comments:\n" + Join(blocks.value, "\n\n")];
        if !AsksForMetrics(prompt) then Step(Built(Join(parts, "\n\n")), afterComments)
        else
          var metrics := src.financialMetrics(first);
          var afterMetrics := afterComments + [FetchFinancialMetrics(first)];
          if metrics.Threw? then Step(Raised, afterMetrics)
          else Step(Built(Join(parts + [MetricsPart(json, metrics)], "\n\n")), afterMetrics)
  }

  /** The categories that have a `case`; every other one, "Company Info"
      included, reaches `default` and throws "Unrecognized category". */
  predicate HasCase(category: string)
  {
    category in {"CEO Comments", "Earnings Summary", "Financial Metrics", "General Inquiry", "Mixed Query"}
  }

  /** The `switch (category)` of the route. */
  function Dispatch(category: string, symbols: seq<string>, prompt: string, src: Sources, json: Json): Step
  {
    if category == "CEO Comments" then CeoComments(symbols, src)
    else if category == "Earnings Summary" then EarningsSummary(symbols, src)
    else if category == "Financial Metrics" then FinancialMetrics(symbols, src, json)
    else if category == "General Inquiry" then GeneralInquiry(symbols, src)
    else if category == "Mixed Query" then MixedQuery(symbols, prompt, src, json)
    else Step(Raised, [])
  }

  /** The evidence text after the inner `catch`: a case that threw leaves the
      initial "" in place. */
  function EvidenceText(step: Step): string
  {
    if step.evidence.Built? then step.evidence.text else ""
  }

  // ---------------------------------------------------------------------
  // Properties of the cases

  /** A category without a `case` issues no fetch and leaves the evidence
      empty, instead of failing the request. */
  lemma UnknownCategoryFetchesNothing(category: string, symbols: seq<string>, prompt: string, src: Sources, json: Json)
    requires !HasCase(category)
    ensures Dispatch(category, symbols, prompt, src, json) == Step(Raised, [])
    ensures EvidenceText(Dispatch(category, symbols, prompt, src, json)) == ""
  {
  }

  /** CEO Comments: the evidence is the blocks in symbol order joined by
      blank lines, one block per symbol; one failing lookup empties it all. */
  lemma CeoCommentsEvidence(symbols: seq<string>, src: Sources)
    ensures var step := CeoComments(symbols, src);
            && step.fetches == MultipleTranscriptsCalls(symbols)
            && ((forall i :: 0 <= i < |symbols| ==> src.multipleTranscripts(Some(symbols[i])).Got?)
                ==> exists blocks: seq<string> ::
                      && |blocks| == |symbols|
                      && (forall i :: 0 <= i < |symbols| ==>
                            blocks[i] == SymbolBlock(symbols[i], src.multipleTranscripts(Some(symbols[i])).value))
                      && EvidenceText(step) == Join(blocks, "\n\n"))
            && ((exists i :: 0 <= i < |symbols| && !src.multipleTranscripts(Some(symbols[i])).Got?)
                ==> EvidenceText(step) == "")
  {
    var blocks := CommentBlocks(symbols, src);
    if blocks.Some? {
      assert EvidenceText(CeoComments(symbols, src)) == Join(blocks.value, "\n\n");
    }
  }

  /** With no symbols, CEO Comments gives "" without failing. */
  lemma CeoCommentsWithoutSymbols(src: Sources)
    ensures CeoComments([], src) == Step(Built(""), [])
  {
  }

  /** A symbol with transcripts starts its block with "<symbol> transcripts:\n";
      one without gives "<symbol>: ". */
  lemma SymbolBlockShape(symbol: string, transcripts: seq<Transcript>)
    ensures var block := SymbolBlock(symbol, transcripts);
            && |block| > |symbol|
            && block[..|symbol|] == symbol
            && (|transcripts| == 0 <==> block == symbol + ": ")
  {
    var block := SymbolBlock(symbol, transcripts);
    if |transcripts| > 0 {
      var tail := " transcripts:\n" + JoinedContents(transcripts);
      assert block == symbol + tail;
      assert block[|symbol|..][..2] == " t";
    }
  }

  /** Earnings Summary: the latest transcript verbatim, "" when there is none. */
  lemma EarningsSummaryEvidence(symbols: seq<string>, src: Sources)
    ensures var step := EarningsSummary(symbols, src);
            var t := src.latestTranscript(FirstSymbol(symbols));
            && step.fetches == [FetchLatestTranscript(FirstSymbol(symbols))]
            && (t.Got? ==> step.evidence == Built(t.value.content))
            && (!t.Got? ==> EvidenceText(step) == "")
  {
  }

  /** General Inquiry: the first symbol's transcripts joined by blank lines,
      "" when there are none or the lookup fails. */
  lemma GeneralInquiryEvidence(symbols: seq<string>, src: Sources)
    ensures var step := GeneralInquiry(symbols, src);
            var ts := src.multipleTranscripts(FirstSymbol(symbols));
            && (ts.Got? ==> EvidenceText(step) == Join(TranscriptContents(ts.value), "\n\n"))
            && (!ts.Got? ==> EvidenceText(step) == "")
  {
  }

  lemma PrefixOfConcatenation(h: string, a: string, b: string, c: string, d: string, e: string,
                              f: string, g: string, i: string, j: string, k: string)
    ensures var s := h + a + b + c + d + e + f + g + i + j + k;
            |s| >= |h| && s[..|h|] == h
  {
    var s := h + a + b + c + d + e + f + g + i + j + k;
    assert s == h + (a + b + c + d + e + f + g + i + j + k);
  }

  /** The report starts with its first section header, so it is never empty. */
  lemma MetricsReportStartsWithHeader(json: Json, metrics: Fetch<Record>, transcript: Fetch<Transcript>,
                                      income: Fetch<Record>, balance: Fetch<Record>)
    requires !transcript.Missing?
    ensures var report := MetricsReport(json, metrics, transcript, income, balance);
            |report| >= |MetricsHeader| > 0 && report[..|MetricsHeader|] == MetricsHeader
  {
    PrefixOfConcatenation(MetricsHeader, Printed(json, Caught(metrics)), "\n\n\n",
                          IncomeHeader, Printed(json, Caught(income)), "\n\n\n",
                          BalanceHeader, Printed(json, Caught(balance)), "\n",
                          TranscriptHeader, Printed(json, CaughtContent(transcript)));
  }

  /** Financial Metrics: the evidence is empty exactly when all four fetches
      threw, or when the transcript lookup found nothing (the `.content` read
      then throws); otherwise it is the report, whose sections come in the
      fixed order metrics, income statement, balance sheet, transcript. */
  lemma FinancialMetricsEvidence(symbols: seq<string>, src: Sources, json: Json)
    ensures var step := FinancialMetrics(symbols, src, json);
            var first := FirstSymbol(symbols);
            var m, t, i, b := src.financialMetrics(first), src.latestTranscript(first),
                              src.incomeStatement(first), src.balanceSheet(first);
            && (EvidenceText(step) == "" <==> (m.Threw? && t.Threw? && i.Threw? && b.Threw?) || t.Missing?)
            && (!(m.Threw? && t.Threw? && i.Threw? && b.Threw?) && !t.Missing? ==>
                  EvidenceText(step) == MetricsReport(json, m, t, i, b))
  {
    var first := FirstSymbol(symbols);
    var m, t, i, b := src.financialMetrics(first), src.latestTranscript(first),
                      src.incomeStatement(first), src.balanceSheet(first);
    if !(m.Threw? && t.Threw? && i.Threw? && b.Threw?) && !t.Missing? {
      MetricsReportStartsWithHeader(json, m, t, i, b);
    }
  }

  /** Mixed Query awaits one fetch after another: a failed summary lookup
      stops everything after it, a failed comments lookup stops the metrics
      lookup, and the metrics are looked up only when the prompt asks. */
  lemma MixedQueryIsSequential(symbols: seq<string>, prompt: string, src: Sources, json: Json)
    ensures var step := MixedQuery(symbols, prompt, src, json);
            var first := FirstSymbol(symbols);
            && |step.fetches| > 0 && step.fetches[0] == FetchLatestTranscript(first)
            && (src.latestTranscript(first).Threw? ==> step.fetches == [FetchLatestTranscript(first)])
            && (!src.latestTranscript(first).Threw? ==>
                  step.fetches[1..|symbols| + 1] == MultipleTranscriptsCalls(symbols))
            && (FetchFinancialMetrics(first) in step.fetches <==>
                  && !src.latestTranscript(first).Threw?
                  && CommentBlocks(symbols, src).Some?
                  && AsksForMetrics(prompt))
    ensures !src.latestTranscript(FirstSymbol(symbols)).Threw? ==>
              MixedQuery(symbols, prompt, src, json).fetches
              == [FetchLatestTranscript(FirstSymbol(symbols))] + MultipleTranscriptsCalls(symbols)
                 + (if CommentBlocks(symbols, src).Some? && AsksForMetrics(prompt)
                    then [FetchFinancialMetrics(FirstSymbol(symbols))] else [])
  {
    var step := MixedQuery(symbols, prompt, src, json);
    var first := FirstSymbol(symbols);
    var calls := MultipleTranscriptsCalls(symbols);
    assert FetchFinancialMetrics(first) !in calls;
    if !src.latestTranscript(first).Threw? {
      assert step.fetches[1..|symbols| + 1] == calls;
    }
  }

  /** Mixed Query evidence: the summary part, then "Comments:\n" with the
      blocks, then the metrics part only when the prompt asks for it. */
  lemma MixedQueryEvidence(symbols: seq<string>, prompt: string, src: Sources, json: Json)
    ensures src.latestTranscript(FirstSymbol(symbols)).Threw? || CommentBlocks(symbols, src).None? ==>
              EvidenceText(MixedQuery(symbols, prompt, src, json)) == ""
    ensures !src.latestTranscript(FirstSymbol(symbols)).Threw? && CommentBlocks(symbols, src).Some? ==>
              var step := MixedQuery(symbols, prompt, src, json);
              var first := FirstSymbol(symbols);
              var summary := SummaryPart(src.latestTranscript(first));
              var comments := "Comments:\n" + Join(CommentBlocks(symbols, src).value, "\n\n");
              && (!AsksForMetrics(prompt) ==> step.evidence == Built(summary + "\n\n" + comments))
              && (AsksForMetrics(prompt) && !src.financialMetrics(first).Threw? ==>
                    step.evidence == Built(summary + "\n\n" + comments + "\n\n"
                                           + MetricsPart(json, src.financialMetrics(first))))
              && (AsksForMetrics(prompt) && src.financialMetrics(first).Threw? ==> EvidenceText(step) == "")
  {
    var first := FirstSymbol(symbols);
    if src.latestTranscript(first).Threw? || CommentBlocks(symbols, src).None? {
      return;
    }
    var summary := SummaryPart(src.latestTranscript(first));
    var comments := "Comments:\n" + Join(CommentBlocks(symbols, src).value, "\n\n");
    if !AsksForMetrics(prompt) {
      JoinTwo(summary, comments, "\n\n");
    } else if !src.financialMetrics(first).Threw? {
      var metrics := MetricsPart(json, src.financialMetrics(first));
      JoinThree(summary, comments, metrics, "\n\n");
      assert [summary, comments] + [metrics] == [summary, comments, metrics];
    }
  }
}
