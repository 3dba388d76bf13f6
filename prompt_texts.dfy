/** Facts about single template texts of the prompt builders, each proved
    apart from the others so that the long texts stay out of one another's
    proofs. */
module PromptTexts {
  import opened Prompts


  lemma SummaryMarkerShape()
    ensures SummaryMarker[0] == 'D' && NoBacktick(SummaryMarker)
  {
  }

  lemma MetricsLeadShape()
    ensures MetricsLead[0] == 'T' && NoBacktick(MetricsLead)
  {
  }

  lemma ExtractLeadShape()
    ensures ExtractLead[0] == 'T' && NoBacktick(ExtractLead)
  {
  }

  lemma ExtractTopicLeadClean()
    ensures NoBacktick(ExtractTopicLead)
  {
  }

  lemma CategoryIntroVisible()
    ensures VisibleAt(CategoryIntro, |CategoryIntro| - 2)
  {
    assert CategoryIntro[|CategoryIntro| - 2] == ':';
  }

  lemma CategoryRulesVisible()
    ensures VisibleAt(CategoryRules, |CategoryRules| - 1)
  {
    assert CategoryRules[|CategoryRules| - 1] == '.';
  }

  lemma LastResortVisible()
    ensures HasNonWhitespace(RemoveBackticks(LastResort))
  {
    assert LastResort[|LastResort| - 1] == '.';
    RemoveBackticksKeepsNonWhitespace(LastResort, |LastResort| - 1);
  }

  lemma MetricsClosingVisible()
    ensures HasNonWhitespace(RemoveBackticks(MetricsClosing))
  {
    assert MetricsClosing[|MetricsClosing| - 1] == '.';
    RemoveBackticksKeepsNonWhitespace(MetricsClosing, |MetricsClosing| - 1);
  }

  lemma ExtractClosingVisible()
    ensures HasNonWhitespace(RemoveBackticks(ExtractClosing))
  {
    assert ExtractClosing[|ExtractClosing| - 3] == ':';
    RemoveBackticksKeepsNonWhitespace(ExtractClosing, |ExtractClosing| - 3);
  }
}
