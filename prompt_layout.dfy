/** Where the arguments of the prompt builders land in the texts they build.
    The facts about the long template texts are kept in this module, apart
    from the builders themselves, so that each proof sees only the texts it
    is about. */
module PromptLayout {
  import opened Text
  import opened ChatTypes
  import opened Prompts
  import opened PromptTexts

  /** The classifier prompt's text before the category list, as filtered. */
  const CategoryHead := TrimStart(RemoveBackticks(CategoryIntro))

  /** The classifier prompt's text after the category list, as filtered. */
  const CategoryTail := TrimEnd(RemoveBackticks(CategoryRules))

  lemma CategoryTextsAround(categories: seq<string>)
    requires forall i :: 0 <= i < |categories| ==> NoBacktick(categories[i])
    ensures FilterData(CategoryIntro + Join(categories, ", ") + CategoryRules)
         == CategoryHead + Join(categories, ", ") + CategoryTail
  {
    CategoryIntroVisible();
    CategoryRulesVisible();
    JoinAround(CategoryIntro, categories, CategoryRules, |CategoryIntro| - 2, |CategoryRules| - 1);
  }

  /** For backtick-free names, the classifier prompt holds the category names
      in the given order, joined by ", ", right after the introduction. */
  lemma CategoryPromptListsCategories(categories: seq<string>)
    requires forall i :: 0 <= i < |categories| ==> NoBacktick(categories[i])
    ensures CategoryPrompt(categories) == CategoryHead + Join(categories, ", ") + CategoryTail
  {
    CategoryTextsAround(categories);
  }

  /** The summarising prompt puts the (filtered) question first, then the
      marker "Data to summarize:\n", immediately followed by the transcript. */
  lemma SummarizeUserPromptLayout(prompt: string, transcript: Transcript)
    requires NoBacktick(transcript.content)
    ensures SummarizeUserPrompt(prompt, transcript)
         == TrimStart(RemoveBackticks(prompt + "\n\n")) + SummaryMarker + transcript.content
            + TrimEnd(RemoveBackticks(SummaryRequest + LastResort + "\n    "))
  {
    SummaryMarkerShape();
    LastResortVisible();
    VisibleAfter(SummaryRequest, LastResort);
    VisibleBefore(SummaryRequest + LastResort, "\n    ");
    var middle := SummaryMarker + transcript.content;
    assert NoBacktick(middle) && middle[0] == 'D';
    FilterDataAround(prompt + "\n\n", middle, SummaryRequest + LastResort + "\n    ");
  }

  lemma MetricsTextsAround(combinedContent: string, prompt: string)
    requires NoBacktick(prompt) && NoBacktick(combinedContent)
    ensures FilterData(MetricsLead + prompt + MetricsDataLead + combinedContent + ", " + LastResort + MetricsClosing)
         == MetricsLead + prompt + RemoveBackticks(MetricsDataLead) + combinedContent
            + TrimEnd(RemoveBackticks(", " + LastResort + MetricsClosing))
  {
    MetricsLeadShape();
    MetricsClosingVisible();
    VisibleAfter(", " + LastResort, MetricsClosing);
    QuestionFirst(MetricsLead, prompt, MetricsDataLead, combinedContent, ", " + LastResort + MetricsClosing);
    RegroupQuestionFirst(MetricsLead, prompt, MetricsDataLead, combinedContent, ", ", LastResort, MetricsClosing);
  }

  /** The metrics prompt starts with the user's question, and the gathered
      data follows the data lead-in intact. */
  lemma FinancialMetricsPromptLayout(combinedContent: string, prompt: string)
    requires NoBacktick(prompt) && NoBacktick(combinedContent)
    ensures FinancialMetricsPrompt(combinedContent, prompt)
         == MetricsLead + prompt + RemoveBackticks(MetricsDataLead) + combinedContent
            + TrimEnd(RemoveBackticks(", " + LastResort + MetricsClosing))
  {
    MetricsTextsAround(combinedContent, prompt);
  }

  /** The extraction prompt starts with the user's question, followed by the
      topic enclosed in double quotes. */
  lemma ExtractCommentsUserPromptLayout(prompt: string, topic: string, combinedContent: string)
    requires NoBacktick(prompt) && NoBacktick(topic)
    ensures var question := ExtractLead + prompt + ExtractTopicLead + topic + "\"";
            var r := ExtractCommentsUserPrompt(prompt, topic, combinedContent);
            |question| <= |r| && r[..|question|] == question
  {
    ExtractLeadShape();
    ExtractTopicLeadClean();
    ExtractClosingVisible();
    var question := ExtractLead + prompt + ExtractTopicLead + topic + "\"";
    var rest := ExtractDataLead + combinedContent + ".\n\n " + LastResort + ExtractClosing;
    RegroupQuestionRest(question, ExtractDataLead, combinedContent, ".\n\n ", LastResort, ExtractClosing);
    assert NoBacktick(question) && question[0] == 'T';
    VisibleAfter(ExtractDataLead + combinedContent + ".\n\n " + LastResort, ExtractClosing);
    FilterDataAround("", question, rest);
  }

  /** The builders' templates read left to right; the lemmas above group
      them into a question and the text after it. */
  lemma RegroupQuestionFirst(lead: string, prompt: string, dataLead: string, content: string,
                             sep: string, lastResort: string, closing: string)
    ensures lead + prompt + dataLead + content + sep + lastResort + closing
         == "" + (lead + prompt) + (dataLead + content + (sep + lastResort + closing))
  {
  }

  lemma RegroupQuestionRest(question: string, dataLead: string, content: string,
                            sep: string, lastResort: string, closing: string)
    ensures question + dataLead + content + sep + lastResort + closing
         == "" + question + (dataLead + content + sep + lastResort + closing)
  {
  }
}
