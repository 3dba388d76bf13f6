/** Read-aloud for AI answers (`useSpeechSynthesis`): one utterance per AI
    message, a playing flag per message, and a play/pause toggle.  The
    browser's speech engine is reduced to the list of calls made on it and
    the voices it reports. */
module SpeechSynthesis {
  import opened Text
  import opened ChatTypes

  /** A browser voice; only its name matters here. */
  datatype Voice = Voice(name: string)

  /** A `SpeechSynthesisUtterance`: the text to speak, its language and the
      voice chosen for it (none when voices were not loaded yet). */
  datatype Utterance = Utterance(text: string, lang: string, voice: Option<Voice>)

  /** A call on `window.speechSynthesis`. */
  datatype SpeechCall = Pause | Cancel | Speak(utterance: Utterance)

  const SpeechLang := "en-US"

  /** The voice filter: "Samantha" or "Zira" in the name, or "female" in the
      lower-cased name. */
  predicate IsPreferred(v: Voice)
  {
    Contains(v.name, "Samantha") || Contains(v.name, "Zira") || Contains(ToLower(v.name), "female")
  }

  /** `voices.find(IsPreferred)`, as the index of the first match. */
  function FindPreferred(voices: seq<Voice>): (r: Option<nat>)
    ensures r.Some? ==> r.value < |voices| && IsPreferred(voices[r.value])
    ensures r.Some? ==> forall j :: 0 <= j < r.value ==> !IsPreferred(voices[j])
    ensures r.None? <==> forall j :: 0 <= j < |voices| ==> !IsPreferred(voices[j])
  {
    if |voices| == 0 then None
    else if IsPreferred(voices[0]) then Some(0)
    else
      var rest := FindPreferred(voices[1..]);
      if rest.Some? then Some(rest.value + 1) else None
  }

  /** `femaleVoice || voices[0]`; with no voice at all, `voices[0]` is
      undefined and no voice is set. */
  function ChooseVoice(voices: seq<Voice>): (v: Option<Voice>)
    ensures v.None? <==> |voices| == 0
    ensures (exists j :: 0 <= j < |voices| && IsPreferred(voices[j])) ==> v.Some? && IsPreferred(v.value)
    ensures (forall j :: 0 <= j < |voices| ==> !IsPreferred(voices[j])) && |voices| > 0 ==> v == Some(voices[0])
  {
    var found := FindPreferred(voices);
    if found.Some? then Some(voices[found.value])
    else if |voices| > 0 then Some(voices[0])
    else None
  }

  /** The utterance created for an AI message. */
  function NewUtterance(content: string, voicesLoaded: bool, voices: seq<Voice>): Utterance
  {
    Utterance(content, SpeechLang, if voicesLoaded then ChooseVoice(voices) else None)
  }

  /** `messages.map((_, i) => prev[i] || false)`: one flag per message; a
      flag survives only where there was one, and new flags are off. */
  function Resized(prev: seq<bool>, count: nat): (r: seq<bool>)
    ensures |r| == count
    ensures forall i :: 0 <= i < count && i < |prev| ==> r[i] == prev[i]
    ensures forall i :: |prev| <= i < count ==> !r[i]
  {
    seq(count, i requires 0 <= i < count => i < |prev| && prev[i])
  }

  /** `prev.map((playing, i) => i === index ? !playing : playing)`: only the
      flag at `index` flips, and only when there is one. */
  function Toggled(prev: seq<bool>, index: int): (r: seq<bool>)
    ensures |r| == |prev|
    ensures 0 <= index < |prev| ==> r[index] == !prev[index]
    ensures forall i :: 0 <= i < |prev| && i != index ==> r[i] == prev[i]
  {
    seq(|prev|, i requires 0 <= i < |prev| => if i == index then !prev[i] else prev[i])
  }

  /** The hook's state: `speechRef.current` (a sparse array, keyed by message
      index), `isPlaying`, `voicesLoaded`, and the calls made on the speech
      engine so far. */
  class SpeechState {
    var utterances: map<int, Utterance>
    var isPlaying: seq<bool>
    var voicesLoaded: bool
    var calls: seq<SpeechCall>

    constructor()
      ensures utterances == map[] && isPlaying == [] && !voicesLoaded && calls == []
    {
      utterances := map[];
      isPlaying := [];
      voicesLoaded := false;
      calls := [];
    }

    /** `loadVoices`: the flag is set once the engine reports any voice, and
        never cleared. */
    method LoadVoices(voices: seq<Voice>)
      modifies this
      ensures voicesLoaded == (old(voicesLoaded) || |voices| > 0)
      ensures utterances == old(utterances) && isPlaying == old(isPlaying) && calls == old(calls)
    {
      if |voices| > 0 {
        voicesLoaded := true;
      }
    }

    /** The effect run when `messages` or `voicesLoaded` changes; `voices` is
        what `getVoices` reports meanwhile. */
    method OnMessages(messages: seq<Message>, voices: seq<Voice>)
      modifies this
      // existing utterances are never replaced
      ensures forall i :: i in old(utterances) ==> i in utterances && utterances[i] == old(utterances)[i]
      // new ones only for AI messages, built from their content
      ensures forall i :: i in utterances && i !in old(utterances) ==>
                0 <= i < |messages| && messages[i].role == Ai
                && utterances[i] == NewUtterance(messages[i].content, voicesLoaded, voices)
      // afterwards every AI message has one
      ensures forall i :: 0 <= i < |messages| && messages[i].role == Ai ==> i in utterances
      ensures isPlaying == Resized(old(isPlaying), |messages|)
      ensures voicesLoaded == old(voicesLoaded) && calls == old(calls)
    {
      var index := 0;
      while index < |messages|
        invariant 0 <= index <= |messages|
        invariant isPlaying == old(isPlaying) && voicesLoaded == old(voicesLoaded) && calls == old(calls)
        invariant forall i :: i in old(utterances) ==> i in utterances && utterances[i] == old(utterances)[i]
        invariant forall i :: i in utterances && i !in old(utterances) ==>
                    0 <= i < index && messages[i].role == Ai
                    && utterances[i] == NewUtterance(messages[i].content, voicesLoaded, voices)
        invariant forall i :: 0 <= i < index && messages[i].role == Ai ==> i in utterances
      {
        var msg := messages[index];
        if msg.role == Ai && index !in utterances {
          var voice := if voicesLoaded then ChooseVoice(voices) else None;
          utterances := utterances[index := Utterance(msg.content, SpeechLang, voice)];
        }
        index := index + 1;
      }
      isPlaying := Resized(isPlaying, |messages|);
    }

    /** `toggleAudio`: nothing without an utterance; otherwise pause when
        playing, or cancel and speak this utterance, then flip its flag. */
    method ToggleAudio(index: int)
      modifies this
      ensures index !in old(utterances) ==>
                isPlaying == old(isPlaying) && calls == old(calls)
      ensures index in old(utterances) ==>
                && isPlaying == Toggled(old(isPlaying), index)
                && calls == old(calls) + ToggleCalls(old(isPlaying), index, old(utterances)[index])
      ensures utterances == old(utterances) && voicesLoaded == old(voicesLoaded)
    {
      if index !in utterances {
        return;
      }
      var utterance := utterances[index];
      if 0 <= index < |isPlaying| && isPlaying[index] {
        calls := calls + [Pause];
      } else {
        calls := calls + [Cancel];
        calls := calls + [Speak(utterance)];
      }
      isPlaying := Toggled(isPlaying, index);
    }
  }

  /** The engine calls of one toggle: a single pause for a playing message
      (an index past the flags reads as not playing), otherwise a cancel
      followed by speaking the utterance. */
  function ToggleCalls(isPlaying: seq<bool>, index: int, utterance: Utterance): seq<SpeechCall>
  {
    if 0 <= index < |isPlaying| && isPlaying[index] then [Pause] else [Cancel, Speak(utterance)]
  }

  // ---------------------------------------------------------------------
  // Properties

  /** Toggling the same message twice restores every flag. */
  lemma ToggleTwiceRestores(flags: seq<bool>, index: int)
    ensures Toggled(Toggled(flags, index), index) == flags
  {
  }

  /** Toggling a message flips exactly one flag: the result differs from the
      flags before at `index` and nowhere else. */
  lemma ToggleChangesOnlyIndex(flags: seq<bool>, index: int, i: int)
    requires 0 <= i < |flags|
    ensures Toggled(flags, index)[i] != flags[i] <==> i == index
  {
  }

  /** Resizing to the same count again changes nothing; resizing never
      turns a flag on. */
  lemma ResizedIsStable(flags: seq<bool>, count: nat)
    ensures Resized(Resized(flags, count), count) == Resized(flags, count)
    ensures forall i :: 0 <= i < count && Resized(flags, count)[i] ==> i < |flags| && flags[i]
  {
  }

  /** The chosen voice is the first preferred one, else the first voice. */
  lemma ChosenVoiceIsFirstPreferred(voices: seq<Voice>, k: nat)
    requires k < |voices| && IsPreferred(voices[k])
    requires forall j :: 0 <= j < k ==> !IsPreferred(voices[j])
    ensures ChooseVoice(voices) == Some(voices[k])
  {
  }
}
