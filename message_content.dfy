/** How an answer is laid out on screen (`MessageContent`): blank-line
    separated sections, each shown as a header line followed by body lines. */
module MessageContent {
  import opened Text
  import opened ChatTypes

  /** One rendered section: the `<h3>` header (`lines[0]`, absent when the
      section has no non-empty line) and the body paragraphs. */
  datatype Section = Section(header: Option<string>, body: seq<string>)

  /** `content.split("\n\n").filter(Boolean)` */
  function Sections(content: string): seq<string>
  {
    NonEmpty(Split(content, "\n\n"))
  }

  /** `section.split("\n").filter(Boolean)` */
  function Lines(section: string): seq<string>
  {
    NonEmpty(Split(section, "\n"))
  }

  /** `header = lines[0]`, `bodyLines = lines.slice(1)`: the header followed
      by the body gives back the kept lines. */
  function Layout(section: string): (r: Section)
    ensures var lines := Lines(section);
            && (|lines| > 0 <==> r.header.Some?)
            && (r.header.Some? ==> [r.header.value] + r.body == lines)
            && (r.header.None? ==> r.body == [])
  {
    var lines := Lines(section);
    if |lines| == 0 then Section(None, [])
    else
      assert [lines[0]] + lines[1..] == lines;
      Section(Some(lines[0]), lines[1..])
  }

  /** The whole component: one laid-out section per section, in order. */
  function Render(content: string): (r: seq<Section>)
    ensures |r| == |Sections(content)|
    ensures forall i :: 0 <= i < |r| ==> r[i] == Layout(Sections(content)[i])
  {
    var sections := Sections(content);
    seq(|sections|, i requires 0 <= i < |sections| => Layout(sections[i]))
  }

  // ---------------------------------------------------------------------
  // Properties

  /** When no piece is empty (no leading, trailing or doubled blank line),
      the sections joined with blank lines give back the content. */
  lemma SectionsRebuildContent(content: string)
    requires forall i :: 0 <= i < |Split(content, "\n\n")| ==> Split(content, "\n\n")[i] != ""
    ensures Join(Sections(content), "\n\n") == content
  {
    NonEmptyKeepsAll(Split(content, "\n\n"));
    JoinSplit(content, "\n\n");
  }

  /** An empty answer renders nothing. */
  lemma EmptyContentHasNoSections()
    ensures Sections("") == []
    ensures Render("") == []
  {
    assert Split("", "\n\n") == [""];
  }

  /** A non-empty answer without a line break is one section whose header
      is the whole answer and whose body is empty. */
  lemma SingleLineContent(content: string)
    requires content != ""
    requires forall i :: 0 <= i < |content| ==> content[i] != '\n'
    ensures Sections(content) == [content]
    ensures Render(content) == [Section(Some(content), [])]
  {
    SplitWithoutSeparator(content, "\n\n");
    SplitWithoutSeparator(content, "\n");
    assert NonEmpty([content]) == [content];
    assert Lines(content) == [content];
  }

  /** There are at most as many sections as blank-line separators `split`
      cuts at, plus one; exactly that many when no piece is empty. */
  lemma SectionCountBound(content: string)
    ensures |Sections(content)| <= Separators(content, "\n\n") + 1
    ensures (forall i :: 0 <= i < |Split(content, "\n\n")| ==> Split(content, "\n\n")[i] != "")
            ==> |Sections(content)| == Separators(content, "\n\n") + 1
  {
    SplitCount(content, "\n\n");
    if forall i :: 0 <= i < |Split(content, "\n\n")| ==> Split(content, "\n\n")[i] != "" {
      NonEmptyKeepsAll(Split(content, "\n\n"));
    }
  }
}
