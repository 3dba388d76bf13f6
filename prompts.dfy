/** The prompt builders of `src/helpers/prompts.ts`: template strings that
    are all passed through `filterData` (remove every backtick, then trim). */
module Prompts {
  import opened Text
  import opened ChatTypes

  // ---------------------------------------------------------------------
  // filterData: `data.replaceAll("`", "").trim()`

  /** ECMAScript WhiteSpace and LineTerminator characters, the set `trim`
      removes. */
  predicate IsWhitespace(c: char)
  {
    || c == ' ' || c == '\t' || c == '\n' || c == '\r'
    || c == '\U{000B}' || c == '\U{000C}' || c == '\U{00A0}' || c == '\U{FEFF}'
    || c == '\U{1680}' || ('\U{2000}' <= c <= '\U{200A}')
    || c == '\U{2028}' || c == '\U{2029}' || c == '\U{202F}' || c == '\U{205F}'
    || c == '\U{3000}'
  }

  predicate NoBacktick(s: string)
  {
    forall i :: 0 <= i < |s| ==> s[i] != '`'
  }

  predicate HasNonWhitespace(s: string)
  {
    exists i :: 0 <= i < |s| && !IsWhitespace(s[i])
  }

  /** Neither end of the text is whitespace. */
  predicate IsTrimmed(s: string)
  {
    s == "" || (!IsWhitespace(s[0]) && !IsWhitespace(s[|s| - 1]))
  }

  /** What every exported prompt builder guarantees of its result. */
  predicate IsFiltered(s: string)
  {
    NoBacktick(s) && IsTrimmed(s)
  }

  /** `replaceAll("`", "")` */
  function RemoveBackticks(s: string): string
  {
    if |s| == 0 then ""
    else (if s[0] == '`' then "" else [s[0]]) + RemoveBackticks(s[1..])
  }

  /** No backtick survives `replaceAll`. */
  lemma {:induction false} RemoveBackticksRemovesAll(s: string)
    ensures NoBacktick(RemoveBackticks(s))
  {
    if |s| > 0 {
      RemoveBackticksRemovesAll(s[1..]);
    }
  }

  /** Leading half of `trim`. */
  function TrimStart(s: string): string
  {
    if |s| > 0 && IsWhitespace(s[0]) then TrimStart(s[1..]) else s
  }

  /** Trailing half of `trim`. */
  function TrimEnd(s: string): string
  {
    if |s| > 0 && IsWhitespace(s[|s| - 1]) then TrimEnd(s[..|s| - 1]) else s
  }

  /** `TrimStart` drops exactly the longest whitespace prefix. */
  lemma {:induction false} TrimStartDropsLeadingWhitespace(s: string)
    ensures var r := TrimStart(s);
            && |r| <= |s| && r == s[|s| - |r|..]
            && (r == "" || !IsWhitespace(r[0]))
            && forall i :: 0 <= i < |s| - |r| ==> IsWhitespace(s[i])
  {
    if |s| > 0 && IsWhitespace(s[0]) {
      TrimStartDropsLeadingWhitespace(s[1..]);
      var r := TrimStart(s);
      forall i | 0 <= i < |s| - |r|
        ensures IsWhitespace(s[i])
      {
        if i > 0 {
          assert s[i] == s[1..][i - 1];
        }
      }
    }
  }

  /** `TrimEnd` drops exactly the longest whitespace suffix. */
  lemma {:induction false} TrimEndDropsTrailingWhitespace(s: string)
    ensures var r := TrimEnd(s);
            && |r| <= |s| && r == s[..|r|]
            && (r == "" || !IsWhitespace(r[|r| - 1]))
            && forall i :: |r| <= i < |s| ==> IsWhitespace(s[i])
  {
    if |s| > 0 && IsWhitespace(s[|s| - 1]) {
      TrimEndDropsTrailingWhitespace(s[..|s| - 1]);
      var r := TrimEnd(s);
      forall i | |r| <= i < |s|
        ensures IsWhitespace(s[i])
      {
        if i < |s| - 1 {
          assert s[i] == s[..|s| - 1][i];
        }
      }
    }
  }

  function FilterData(data: string): (r: string)
    ensures IsFiltered(r)
  {
    var clean := RemoveBackticks(data);
    RemoveBackticksRemovesAll(data);
    TrimStartDropsLeadingWhitespace(clean);
    TrimEndDropsTrailingWhitespace(TrimStart(clean));
    TrimEnd(TrimStart(clean))
  }

  /** A backtick-free text loses nothing to `replaceAll`. */
  lemma {:induction false} RemoveBackticksOfClean(s: string)
    requires NoBacktick(s)
    ensures RemoveBackticks(s) == s
  {
    if |s| > 0 {
      RemoveBackticksOfClean(s[1..]);
      assert [s[0]] + s[1..] == s;
    }
  }

  /** Removing backticks works piece by piece, keeping the order of the
      other characters. */
  lemma {:induction false} RemoveBackticksAppend(a: string, b: string)
    ensures RemoveBackticks(a + b) == RemoveBackticks(a) + RemoveBackticks(b)
  {
    if |a| == 0 {
      assert a + b == b;
    } else {
      assert (a + b)[1..] == a[1..] + b;
      RemoveBackticksAppend(a[1..], b);
    }
  }

  /** A character other than a backtick survives `replaceAll`. */
  lemma RemoveBackticksKeeps(s: string, k: nat)
    requires k < |s| && s[k] != '`'
    ensures RemoveBackticks(s) == RemoveBackticks(s[..k]) + [s[k]] + RemoveBackticks(s[k + 1..])
  {
    assert RemoveBackticks(s) == RemoveBackticks(s[..k]) + RemoveBackticks(s[k..]) by {
      assert s == s[..k] + s[k..];
      RemoveBackticksAppend(s[..k], s[k..]);
    }
    assert RemoveBackticks(s[k..]) == [s[k]] + RemoveBackticks(s[k + 1..]) by {
      assert s[k..][1..] == s[k + 1..];
    }
  }

  /** A non-whitespace character of the template keeps `trim` away from
      whatever follows or precedes it. */
  lemma RemoveBackticksKeepsNonWhitespace(s: string, k: nat)
    requires k < |s| && s[k] != '`' && !IsWhitespace(s[k])
    ensures HasNonWhitespace(RemoveBackticks(s))
  {
    RemoveBackticksKeeps(s, k);
    var r := RemoveBackticks(s);
    var j := |RemoveBackticks(s[..k])|;
    assert r[j] == s[k];
  }

  lemma RemoveBackticksEndsWith(s: string)
    requires |s| > 0 && s[|s| - 1] != '`'
    ensures var r := RemoveBackticks(s); |r| > 0 && r[|r| - 1] == s[|s| - 1]
  {
    RemoveBackticksKeeps(s, |s| - 1);
    assert s[|s|..] == "";
  }

  lemma {:induction false} TrimStartAppend(a: string, b: string)
    requires HasNonWhitespace(a) || (|b| > 0 && !IsWhitespace(b[0]))
    ensures TrimStart(a + b) == TrimStart(a) + b
  {
    if |a| == 0 {
      assert a + b == b;
    } else if IsWhitespace(a[0]) {
      assert (a + b)[1..] == a[1..] + b;
      if HasNonWhitespace(a) {
        var i :| 0 <= i < |a| && !IsWhitespace(a[i]);
        assert a[1..][i - 1] == a[i];
      }
      TrimStartAppend(a[1..], b);
    }
  }

  lemma {:induction false} TrimEndAppend(a: string, b: string)
    requires HasNonWhitespace(b) || (|a| > 0 && !IsWhitespace(a[|a| - 1]))
    ensures TrimEnd(a + b) == a + TrimEnd(b)
    decreases |b|
  {
    if |b| == 0 {
      assert a + b == a;
    } else if IsWhitespace(b[|b| - 1]) {
      assert (a + b)[..|a + b| - 1] == a + b[..|b| - 1];
      if HasNonWhitespace(b) {
        var i :| 0 <= i < |b| && !IsWhitespace(b[i]);
        assert b[..|b| - 1][i] == b[i];
      }
      TrimEndAppend(a, b[..|b| - 1]);
    }
  }

  lemma {:induction false} TrimEndWhitespaceTail(a: string, b: string)
    requires forall i :: 0 <= i < |b| ==> IsWhitespace(b[i])
    ensures TrimEnd(a + b) == TrimEnd(a)
    decreases |b|
  {
    if |b| == 0 {
      assert a + b == a;
    } else {
      assert (a + b)[..|a + b| - 1] == a + b[..|b| - 1];
      TrimEndWhitespaceTail(a, b[..|b| - 1]);
    }
  }

  /** Filtering a second time changes nothing. */
  lemma FilterDataIdempotent(data: string)
    ensures FilterData(FilterData(data)) == FilterData(data)
  {
    var r := FilterData(data);
    RemoveBackticksOfClean(r);
  }

  // ---------------------------------------------------------------------
  // The template texts

  const Prettify :=
    "Format the response as plain text with clear section headers "
    + "and structured paragraphs. Highlight the headings and key metrics "
    + "such as numbers and focused items. Do not use Markdown symbols "
    + "like asterisks (**) or dashes (-) for bullet points, use plain "
    + "text instead. Don't use markdown language to return data. Format "
    + "the response as plain text with clear section headers (e.g., "
    + "'Apple Q1 Fiscal Year 2025 Earnings Call Summary', 'Key Highlights') "
    + "and structured paragraphs. Under no circumstances use Markdown "
    + "symbols such as asterisks (*) or dashes (-) for bullet points "
    + "or emphasis\U{2014}use plain text exclusively. For example, instead "
    + "of '- Revenue: $124.3 billion' or '**Revenue**', write 'Revenue: "
    + "$124.3 billion' in plain text."

  const LastResort :=
    "If you can't find the answer from the data I provided or if "
    + "data is not available or if you see that provided data does "
    + "not contain specific information, then search on your own and "
    + "give me best and accurate answer possible. But always try to "
    + "find an answer using the provided data first and then try on "
    + "your own, and in answer don't write that provided data does "
    + "not contain specific information."

  const CategoryIntro :=
    "You are an AI assistant specializing in prompt categorization. "
    + "Analyze the provided prompt and categorize it into one of these "
    + "categories: "

  const CategoryRules :=
    ". \n              Return a complete JSON object with: { category: "
    + "string, companies: string[], ceos?: string[], topic: string "
    + "}. Also make sure that for companies, return their parent company "
    + "for example for facebook its Meta, so do the same for all. \n "
    + "             If no CEOs are mentioned, omit the ceos field. "
    + "For mixed intents (e.g., summary and comments), use \"Mixed Query\". "
    + "Ensure the response is accurate and fully structured without "
    + "truncation. Example for categories - \"CEO Comments\": For prompts "
    + "like \"What are Mark Zuckerberg's and Satya Nadella's recent "
    + "comments about AI?\"\U{2014}focuses on extracting individual or management "
    + "statements from transcripts.\n\"Earnings Summary\": For prompts "
    + "like \"Summarize Spotify's latest conference call\"\U{2014}focuses on "
    + "summarizing entire earnings call transcripts.\n\"Financial Metrics\": "
    + "For prompts like \"How many new large deals did ServiceNow sign "
    + "in the last quarter?\"\U{2014}focuses on specific financial or operational "
    + "metrics, often combining transcript data and key metrics.\n\"General "
    + "Inquiry\": A catch-all for broader or less specific queries.\n\"Mixed "
    + "Query\": For prompts combining multiple intents (e.g., summary "
    + "+ comments)."

  const SummarizeSystemIntro :=
    "You are a financial analyst tasked with providing concise, accurate "
    + "summaries of earnings calls\n or financial metrics.\n \n For Earnings "
    + "calls : Provide a complete summary of the earnings call or financial "
    + "data, ensuring all key points are included without truncation. "
    + "\n Ensure the summary is complete, capturing all key points without "
    + "omitting critical\n  details, and avoid cutting off mid-sentence. "
    + "  "

  const SummaryMarker := "Data to summarize:\n"

  const SummaryRequest :=
    "\n\nPlease provide a full summary of the provided data, ensuring "
    + "all relevant information is included without truncation.\n"

  const ExtractSystemIntro :=
    "You are a financial analyst skilled at extracting specific comments "
    + "from financial data. Ensure all relevant comments about the "
    + "topic are included comprehensively, without cutting off mid-response, "
    + "and provide a complete extraction. and "

  const MetricsLead := "This is the question asked by user - "

  const MetricsDataLead :=
    ", Focus on giving the answer the user want by analyzing all "
    + "the following data  - "

  const MetricsClosing :=
    ", also give metrics in a table form in a well structured manner "
    + "while giving the answer."

  const ExtractLead := "This is the question asked by user "

  const ExtractTopicLead := ". Extract all comments related to \""

  const ExtractDataLead := " and the question from user from the following data "

  const ExtractClosing :=
    ". \n\n Ensure the response is complete, capturing every relevant "
    + "statement without omission and try to summarize things as well, "
    + "don't just return the raw text:\n\n"

  // ---------------------------------------------------------------------
  // The exported builders

  /** System prompt of the classifier, listing the category names. */
  function CategoryPrompt(categories: seq<string>): (r: string)
    ensures IsFiltered(r)
  {
    FilterData(CategoryIntro + Join(categories, ", ") + CategoryRules)
  }

  function SummarizeSystemPrompt(): (r: string)
    ensures IsFiltered(r)
  {
    FilterData(SummarizeSystemIntro + Prettify + " \n  ")
  }

  function SummarizeUserPrompt(prompt: string, transcript: Transcript): (r: string)
    ensures IsFiltered(r)
  {
    FilterData(prompt + "\n\n" + (SummaryMarker + transcript.content) + (SummaryRequest + LastResort + "\n    "))
  }

  function ExtractCommentsSystemPrompt(): (r: string)
    ensures IsFiltered(r)
  {
    FilterData(ExtractSystemIntro + Prettify)
  }

  function FinancialMetricsPrompt(combinedContent: string, prompt: string): (r: string)
    ensures IsFiltered(r)
  {
    FilterData(MetricsLead + prompt + MetricsDataLead + combinedContent + ", " + LastResort + MetricsClosing)
  }

  function ExtractCommentsUserPrompt(prompt: string, topic: string, combinedContent: string): (r: string)
    ensures IsFiltered(r)
  {
    FilterData(ExtractLead + prompt + ExtractTopicLead + topic + "\"" + ExtractDataLead + combinedContent
               + ".\n\n " + LastResort + ExtractClosing)
  }

  // ---------------------------------------------------------------------
  // Where the arguments land in the built prompts

  lemma JoinNoBacktick(pieces: seq<string>, sep: string)
    requires NoBacktick(sep)
    requires forall i :: 0 <= i < |pieces| ==> NoBacktick(pieces[i])
    ensures NoBacktick(Join(pieces, sep))
  {
  }

  /** `filterData(lead + middle + rest)` for a backtick-free middle that
      `trim` cannot reach: the middle comes out intact between the filtered
      lead and rest. */
  lemma FilterDataAround(lead: string, middle: string, rest: string)
    requires NoBacktick(middle)
    requires HasNonWhitespace(RemoveBackticks(lead)) || (|middle| > 0 && !IsWhitespace(middle[0]))
    requires HasNonWhitespace(RemoveBackticks(rest))
    ensures FilterData(lead + middle + rest)
         == TrimStart(RemoveBackticks(lead)) + middle + TrimEnd(RemoveBackticks(rest))
  {
    var l, r := RemoveBackticks(lead), RemoveBackticks(rest);
    var start := TrimStart(l) + middle;
    assert RemoveBackticks(lead + middle + rest) == l + (middle + r) by {
      RemoveBackticksAppend(lead + middle, rest);
      RemoveBackticksAppend(lead, middle);
      RemoveBackticksOfClean(middle);
    }
    assert TrimStart(l + (middle + r)) == start + r by {
      if !HasNonWhitespace(l) {
        assert (middle + r)[0] == middle[0];
      }
      TrimStartAppend(l, middle + r);
    }
    assert TrimEnd(start + r) == start + TrimEnd(r) by {
      TrimEndAppend(start, r);
    }
  }

  /** A text whose backtick-free form has a visible character keeps it
      when more text is put in front. */
  lemma VisibleAfter(front: string, s: string)
    requires HasNonWhitespace(RemoveBackticks(s))
    ensures HasNonWhitespace(RemoveBackticks(front + s))
  {
    RemoveBackticksAppend(front, s);
    var r := RemoveBackticks(s);
    var i :| 0 <= i < |r| && !IsWhitespace(r[i]);
    assert (RemoveBackticks(front) + r)[|RemoveBackticks(front)| + i] == r[i];
  }

  /** A visible character before a whitespace-only tail stays visible. */
  lemma VisibleBefore(s: string, tail: string)
    requires HasNonWhitespace(RemoveBackticks(s))
    ensures HasNonWhitespace(RemoveBackticks(s + tail))
  {
    RemoveBackticksAppend(s, tail);
    var r := RemoveBackticks(s);
    var i :| 0 <= i < |r| && !IsWhitespace(r[i]);
    assert (r + RemoveBackticks(tail))[i] == r[i];
  }

  lemma SeparatorClean()
    ensures NoBacktick(", ")
  {
  }

  /** Position `k` of `s` holds a character that neither `replaceAll` nor
      `trim` removes. */
  predicate VisibleAt(s: string, k: int)
  {
    0 <= k < |s| && s[k] != '`' && !IsWhitespace(s[k])
  }

  lemma JoinAround(lead: string, names: seq<string>, rest: string, i: int, j: int)
    requires forall n :: 0 <= n < |names| ==> NoBacktick(names[n])
    requires VisibleAt(lead, i) && VisibleAt(rest, j)
    ensures FilterData(lead + Join(names, ", ") + rest)
         == TrimStart(RemoveBackticks(lead)) + Join(names, ", ") + TrimEnd(RemoveBackticks(rest))
  {
    SeparatorClean();
    JoinNoBacktick(names, ", ");
    RemoveBackticksKeepsNonWhitespace(lead, i);
    RemoveBackticksKeepsNonWhitespace(rest, j);
    FilterDataAround(lead, Join(names, ", "), rest);
  }

  /** A backtick-free question with a visible first character comes out of
      `filterData` intact, followed by the data lead-in and the data. */
  lemma QuestionFirst(lead: string, prompt: string, dataLead: string, content: string, tail: string)
    requires NoBacktick(lead) && |lead| > 0 && !IsWhitespace(lead[0])
    requires NoBacktick(prompt) && NoBacktick(content)
    requires HasNonWhitespace(RemoveBackticks(tail))
    ensures FilterData("" + (lead + prompt) + (dataLead + content + tail))
         == lead + prompt + RemoveBackticks(dataLead) + content + TrimEnd(RemoveBackticks(tail))
  {
    var question := lead + prompt;
    var data := dataLead + content + tail;
    assert FilterData("" + question + data) == question + TrimEnd(RemoveBackticks(data)) by {
      assert NoBacktick(question) && question[0] == lead[0];
      VisibleAfter(dataLead + content, tail);
      FilterDataAround("", question, data);
    }
    assert TrimEnd(RemoveBackticks(data))
        == RemoveBackticks(dataLead) + content + TrimEnd(RemoveBackticks(tail)) by {
      CleanMiddle(dataLead, content, tail);
      TrimEndAppend(RemoveBackticks(dataLead) + content, RemoveBackticks(tail));
    }
  }

  lemma CleanMiddle(lead: string, middle: string, rest: string)
    requires NoBacktick(middle)
    ensures RemoveBackticks(lead + middle + rest)
         == RemoveBackticks(lead) + middle + RemoveBackticks(rest)
  {
    RemoveBackticksAppend(lead + middle, rest);
    RemoveBackticksAppend(lead, middle);
    RemoveBackticksOfClean(middle);
  }
}
