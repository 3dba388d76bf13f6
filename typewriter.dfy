/** The typewriter animation of the chat list (`useTypewriter`): when a new
    AI message arrives, its text is revealed one space-separated word at a
    time; any other new message is shown at once. */
module Typewriter {
  import opened Text
  import opened ChatTypes

  /** One step of `typeNextWord`: the next word is appended after a space,
      unless nothing has been typed yet (an empty text is falsy). */
  function Step(current: string, word: string): string
  {
    if current != "" then current + " " + word else word
  }

  /** The text typed from `current` after stepping through `words`. */
  function TypeWords(current: string, words: seq<string>): string
    decreases |words|
  {
    if |words| == 0 then current else TypeWords(Step(current, words[0]), words[1..])
  }

  /** The text with its leading space characters removed. */
  function DropLeadingSpaces(s: string): string
    decreases |s|
  {
    if |s| > 0 && s[0] == ' ' then DropLeadingSpaces(s[1..]) else s
  }

  /** The model of the hook's state.  `displayed` is `displayedContent`,
      `prevLength` is `prevLengthRef.current` (the ref starts at 0); the
      remaining fields are the closure of the typing session started for
      the latest AI message: the contents of the messages before it, its
      words, `currentContent` and `wordIndex`. */
  class TypewriterState {
    var displayed: seq<string>
    var prevLength: nat
    var earlier: seq<string>
    var words: seq<string>
    var current: string
    var wordIndex: nat

    /** The typed text is always the words stepped through so far. */
    ghost predicate Valid()
      reads this
    {
      wordIndex <= |words| && current == TypeWords("", words[..wordIndex])
    }

    /** The first render: every message in full, no typing session. */
    constructor(messages: seq<Message>)
      ensures Valid()
      ensures displayed == MessageContents(messages) && prevLength == 0
      ensures words == [] && wordIndex == 0 && current == ""
    {
      displayed := MessageContents(messages);
      prevLength := 0;
      earlier := [];
      words := [];
      current := "";
      wordIndex := 0;
    }

    /** The effect run when `messages` changes. */
    method OnMessages(messages: seq<Message>)
      requires Valid()
      modifies this
      ensures Valid()
      // no new message: nothing changes
      ensures |messages| <= old(prevLength) ==>
                && displayed == old(displayed) && prevLength == old(prevLength)
                && earlier == old(earlier) && words == old(words)
                && current == old(current) && wordIndex == old(wordIndex)
      // a new message that is not the AI's: shown at once, the typing
      // session (if any) is left as it was
      ensures |messages| > old(prevLength) && messages[|messages| - 1].role != Ai ==>
                && displayed == MessageContents(messages) && prevLength == |messages|
                && earlier == old(earlier) && words == old(words)
                && current == old(current) && wordIndex == old(wordIndex)
      // a new AI message: its entry starts empty and a session starts over
      // its space-separated words
      ensures |messages| > old(prevLength) && messages[|messages| - 1].role == Ai ==>
                && earlier == MessageContents(messages[..|messages| - 1])
                && displayed == earlier + [""]
                && |displayed| == |messages|
                && prevLength == |messages|
                && words == Split(messages[|messages| - 1].content, " ")
                && current == "" && wordIndex == 0
    {
      var newMessageCount := |messages| - prevLength;
      if newMessageCount <= 0 {
        return;
      }
      var lastMessage := messages[|messages| - 1];
      if lastMessage.role != Ai {
        displayed := MessageContents(messages);
        prevLength := |messages|;
        return;
      }
      earlier := MessageContents(messages[..|messages| - 1]);
      words := Split(lastMessage.content, " ");
      current := "";
      wordIndex := 0;
      displayed := earlier + [""];
      prevLength := |messages|;
    }

    /** `typeNextWord`: while words remain, type one more and show the typed
        text as the last entry; afterwards, do nothing. */
    method TypeNextWord()
      requires Valid()
      modifies this
      ensures Valid()
      ensures earlier == old(earlier) && words == old(words) && prevLength == old(prevLength)
      ensures old(wordIndex) < |words| ==>
                && wordIndex == old(wordIndex) + 1
                && current == Step(old(current), words[old(wordIndex)])
                && displayed == earlier + [current]
      ensures old(wordIndex) >= |words| ==>
                displayed == old(displayed) && current == old(current) && wordIndex == old(wordIndex)
    {
      if wordIndex < |words| {
        TypeWordsSnoc("", words[..wordIndex], words[wordIndex]);
        assert words[..wordIndex + 1] == words[..wordIndex] + [words[wordIndex]];
        current := Step(current, words[wordIndex]);
        displayed := earlier + [current];
        wordIndex := wordIndex + 1;
      }
    }

    /** The chain of timers run to its end: one `typeNextWord` per remaining
        word, after which the whole message has been typed. */
    method TypeRemaining() returns (steps: nat)
      requires Valid()
      modifies this
      ensures Valid()
      ensures steps == |words| - old(wordIndex)
      ensures wordIndex == |words| && current == TypeWords("", words)
      ensures earlier == old(earlier) && words == old(words) && prevLength == old(prevLength)
      ensures steps > 0 ==> displayed == earlier + [current]
      ensures steps == 0 ==> displayed == old(displayed)
    {
      steps := 0;
      while wordIndex < |words|
        invariant Valid()
        invariant earlier == old(earlier) && words == old(words) && prevLength == old(prevLength)
        invariant wordIndex == old(wordIndex) + steps
        invariant steps > 0 ==> displayed == earlier + [current]
        invariant steps == 0 ==> displayed == old(displayed)
        decreases |words| - wordIndex
      {
        TypeNextWord();
        steps := steps + 1;
      }
      assert words[..wordIndex] == words;
    }
  }

  // ---------------------------------------------------------------------
  // Properties of the typed text

  /** Typing one more word extends the text by one step. */
  lemma {:induction false} TypeWordsSnoc(current: string, words: seq<string>, word: string)
    ensures TypeWords(current, words + [word]) == Step(TypeWords(current, words), word)
    decreases |words|
  {
    if |words| > 0 {
      assert (words + [word])[1..] == words[1..] + [word];
      TypeWordsSnoc(Step(current, words[0]), words[1..], word);
    }
  }

  /** Once something has been typed, every further word is appended after
      exactly one space. */
  lemma {:induction false} TypeWordsAfterText(current: string, words: seq<string>)
    requires current != ""
    ensures TypeWords(current, words) == Join([current] + words, " ")
    decreases |words|
  {
    if |words| > 0 {
      var next := current + " " + words[0];
      TypeWordsAfterText(next, words[1..]);
      if |words| > 1 {
        JoinCons(next, words[1..], " ");
        JoinCons(words[0], words[1..], " ");
        assert [words[0]] + words[1..] == words;
      }
      JoinCons(current, words, " ");
    }
  }

  /** When the first word is not empty, the text after k steps is the first
      k words joined by single spaces. */
  lemma TypedPrefixIsJoin(words: seq<string>, k: nat)
    requires k <= |words|
    requires |words| > 0 ==> words[0] != ""
    ensures TypeWords("", words[..k]) == Join(words[..k], " ")
  {
    if k > 0 {
      var typed := words[..k];
      assert typed[1..] == words[1..k];
      TypeWordsAfterText(words[0], words[1..k]);
      assert [words[0]] + words[1..k] == typed;
    }
  }

  /** Typing every word of `content.split(" ")` reproduces the content
      without its leading spaces: the empty words before the first real one
      are skipped, every later one keeps its space. */
  lemma {:induction false} TypedSplitDropsLeadingSpaces(content: string)
    ensures TypeWords("", Split(content, " ")) == DropLeadingSpaces(content)
    decreases |content|
  {
    var words := Split(content, " ");
    if |content| == 0 {
      assert words == [""];
    } else if content[0] == ' ' {
      assert content[..1] == " ";
      assert words == [""] + Split(content[1..], " ");
      TypedSplitDropsLeadingSpaces(content[1..]);
      assert words[1..] == Split(content[1..], " ");
    } else {
      assert content[..1] != " ";
      var rest := Split(content[1..], " ");
      assert words == [[content[0]] + rest[0]] + rest[1..];
      TypeWordsAfterText(words[0], words[1..]);
      assert [words[0]] + words[1..] == words;
      JoinSplit(content, " ");
    }
  }
}
