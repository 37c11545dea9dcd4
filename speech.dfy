/**
 * The browser-side commentary reader (`CommentarySpeechSynthesizer`): the
 * commentary is split into sentences, which are spoken one at a time; the
 * end of each utterance advances to the next sentence, and the flags
 * `isPlaying` and `isPaused` follow the play, pause, resume and stop
 * controls. The browser's speech engine is represented by the record of the
 * requests made to it and of the callbacks fired (`effects`).
 */
module Speech {
  import opened Text

  // ---------------------------------------------------------------------
  // `splitIntoSentences`: `text.split(/(?<=[.!?])\s+/)`

  predicate IsSentenceEnd(c: char)
  {
    c == '.' || c == '!' || c == '?'
  }

  /** The characters of the regular-expression class `\s`. */
  predicate IsSpace(c: char)
  {
    || '\t' <= c <= '\r'
    || c == ' '
    || c == '\U{00A0}'
    || c == '\U{1680}'
    || '\U{2000}' <= c <= '\U{200A}'
    || c == '\U{2028}'
    || c == '\U{2029}'
    || c == '\U{202F}'
    || c == '\U{205F}'
    || c == '\U{3000}'
    || c == '\U{FEFF}'
  }

  /** Position `p` starts a separator: whitespace right after `.`, `!` or `?`. */
  predicate BreaksAt(s: string, p: int)
  {
    0 < p < |s| && IsSentenceEnd(s[p - 1]) && IsSpace(s[p])
  }

  /** The first separator at or after `from`, or `|s|` if there is none. */
  function FirstBreak(s: string, from: nat): (p: nat)
    requires from <= |s|
    ensures from <= p <= |s|
    ensures p == |s| || BreaksAt(s, p)
    ensures forall k :: from <= k < p ==> !BreaksAt(s, k)
    decreases |s| - from
  {
    if from == |s| then |s|
    else if BreaksAt(s, from) then from
    else FirstBreak(s, from + 1)
  }

  /** The end of the whitespace run starting at `p` (`\s+` matches greedily). */
  function SpaceRunEnd(s: string, p: nat): (q: nat)
    requires p <= |s|
    ensures p <= q <= |s|
    ensures forall k :: p <= k < q ==> IsSpace(s[k])
    ensures q == |s| || !IsSpace(s[q])
    decreases |s| - p
  {
    if p < |s| && IsSpace(s[p]) then SpaceRunEnd(s, p + 1) else p
  }

  /** `splitIntoSentences(text)`. */
  function SplitIntoSentences(text: string): (r: seq<string>)
    ensures |r| >= 1
    decreases |text|
  {
    var p := FirstBreak(text, 0);
    if p == |text| then [text]
    else [text[..p]] + SplitIntoSentences(text[SpaceRunEnd(text, p)..])
  }

  /**
   * The pieces: every piece but the last ends with its punctuation, no piece
   * contains a separator, no piece after the first starts with whitespace
   * (the whole run was consumed), and the text splits into several pieces
   * exactly when it contains a separator.
   */
  lemma {:induction false} SentencesFacts(text: string)
    ensures var r := SplitIntoSentences(text);
      && (forall i :: 0 <= i < |r| - 1 ==> |r[i]| > 0 && IsSentenceEnd(r[i][|r[i]| - 1]))
      && (forall i, k :: 0 <= i < |r| ==> !BreaksAt(r[i], k))
      && (forall i :: 0 < i < |r| ==> r[i] == "" || !IsSpace(r[i][0]))
      && (|r| == 1 <==> forall k :: !BreaksAt(text, k))
    decreases |text|
  {
    var p := FirstBreak(text, 0);
    var r := SplitIntoSentences(text);
    if p == |text| {
      assert r == [text];
    } else {
      var q := SpaceRunEnd(text, p);
      var rest := text[q..];
      SentencesFacts(rest);
      var tail := SplitIntoSentences(rest);
      assert r == [text[..p]] + tail;
      var head := text[..p];
      forall k ensures !BreaksAt(head, k) {
        if BreaksAt(head, k) {
          assert BreaksAt(text, k);
        }
      }
      assert r[0] == head && IsSentenceEnd(head[|head| - 1]);
      assert forall i :: 0 < i < |r| ==> r[i] == tail[i - 1];
      if |rest| > 0 {
        assert rest[0] == text[q];
      }
      assert BreaksAt(text, p);
    }
  }

  /** `pieces[0] + gaps[0] + pieces[1] + ... + pieces[n]`. */
  function Interleave(pieces: seq<string>, gaps: seq<string>): string
    requires |gaps| + 1 == |pieces|
  {
    if |gaps| == 0 then pieces[0]
    else pieces[0] + gaps[0] + Interleave(pieces[1..], gaps[1..])
  }

  /** The separators removed between the pieces are non-empty whitespace, and putting them back gives the text. */
  lemma {:induction false} SentencesRebuild(text: string) returns (gaps: seq<string>)
    ensures |gaps| + 1 == |SplitIntoSentences(text)|
    ensures forall i :: 0 <= i < |gaps| ==> |gaps[i]| > 0 && AllSpace(gaps[i])
    ensures Interleave(SplitIntoSentences(text), gaps) == text
    decreases |text|
  {
    var p := FirstBreak(text, 0);
    var r := SplitIntoSentences(text);
    if p == |text| {
      gaps := [];
    } else {
      var q := SpaceRunEnd(text, p);
      var rest := text[q..];
      var more := SentencesRebuild(rest);
      var tail := SplitIntoSentences(rest);
      assert r == [text[..p]] + tail;
      var gap := text[p..q];
      GapIsSpace(text, p);
      gaps := [gap] + more;
      InterleaveCons(text[..p], gap, tail, more);
      assert text == text[..p] + gap + rest;
    }
  }

  predicate AllSpace(s: string)
  {
    forall k :: 0 <= k < |s| ==> IsSpace(s[k])
  }

  /** The whitespace run at a separator is non-empty. */
  lemma GapIsSpace(text: string, p: nat)
    requires p < |text| && BreaksAt(text, p)
    ensures var g := text[p..SpaceRunEnd(text, p)]; |g| > 0 && AllSpace(g)
  {
    var q := SpaceRunEnd(text, p);
    var g := text[p..q];
    forall k | 0 <= k < |g| ensures IsSpace(g[k]) {
      assert g[k] == text[p + k];
    }
  }

  lemma InterleaveCons(head: string, gap: string, tail: seq<string>, more: seq<string>)
    requires |more| + 1 == |tail|
    ensures Interleave([head] + tail, [gap] + more) == head + gap + Interleave(tail, more)
  {
    assert ([head] + tail)[1..] == tail;
    assert ([gap] + more)[1..] == more;
  }

  // ---------------------------------------------------------------------
  // The playback state machine

  /** A request to the speech engine, or a callback fired. */
  datatype Effect =
    | SentenceChanged(sentence: string, index: nat)  // `onSentenceChange(sentence, index)`
    | Spoken(sentence: string)                       // `synth.speak(utterance)`
    | CommentaryEnded                                // `onCommentaryEnd()`
    | SynthPaused                                    // `synth.pause()`
    | SynthResumed                                   // `synth.resume()`
    | SynthCancelled                                 // `synth.cancel()`

  /** The fields of the synthesizer that the controls read and write. */
  datatype Playback = Playback(
    text: string,
    sentences: seq<string>,
    isPlaying: bool,
    isPaused: bool,
    index: nat,
    effects: seq<Effect>)

  /** The state after the constructor. */
  const Initial: Playback := Playback("", [], false, false, 0, [])

  /** Never both playing and paused; the sentences are those of the text, unless no commentary was set. */
  predicate Coherent(st: Playback)
  {
    && !(st.isPlaying && st.isPaused)
    && (st.sentences == SplitIntoSentences(st.text) || (st.text == "" && st.sentences == []))
  }

  /** Coherent, and the index is a sentence position (or 0). */
  predicate Consistent(st: Playback)
  {
    Coherent(st) && (st.index < |st.sentences| || st.index == 0)
  }

  function AfterSetCommentary(st: Playback, text: string): Playback
  {
    st.(text := text, sentences := SplitIntoSentences(text), index := 0)
  }

  /** `speakNextSentence`: past the last sentence playback ends and rewinds; otherwise the sentence is announced and spoken. */
  function AfterSpeakNext(st: Playback): Playback
  {
    if st.index >= |st.sentences| then
      st.(isPlaying := false, index := 0, effects := st.effects + [CommentaryEnded])
    else
      var sentence := st.sentences[st.index];
      st.(effects := st.effects + [SentenceChanged(sentence, st.index), Spoken(sentence)])
  }

  function AfterPause(st: Playback): Playback
  {
    if !st.isPlaying then st
    else st.(isPaused := true, isPlaying := false, effects := st.effects + [SynthPaused])
  }

  function AfterResume(st: Playback): Playback
  {
    if !st.isPaused then st
    else st.(isPaused := false, isPlaying := true, effects := st.effects + [SynthResumed])
  }

  function AfterPlay(st: Playback): Playback
  {
    if st.isPlaying then st
    else if st.isPaused then AfterResume(st)
    else if st.text == "" then st
    else AfterSpeakNext(st.(isPlaying := true))
  }

  function AfterStop(st: Playback): Playback
  {
    st.(isPaused := false, isPlaying := false, index := 0, effects := st.effects + [SynthCancelled])
  }

  /** The utterance's `onend` handler. */
  function AfterEnd(st: Playback): Playback
  {
    AfterSpeakNext(st.(index := st.index + 1))
  }

  /** The utterance's `onerror` handler. */
  function AfterError(st: Playback): Playback
  {
    st.(isPlaying := false)
  }

  /** The play button: stop when playing or paused, otherwise play. */
  function AfterClick(st: Playback): Playback
  {
    if st.isPlaying || st.isPaused then AfterStop(st) else AfterPlay(st)
  }

  lemma InitialConsistent()
    ensures Consistent(Initial)
  {
  }

  /** Every control and handler keeps the state consistent. */
  lemma TransitionsKeepConsistent(st: Playback, text: string)
    requires Consistent(st)
    ensures Consistent(AfterSetCommentary(st, text))
    ensures Consistent(AfterSpeakNext(st))
    ensures Consistent(AfterPause(st))
    ensures Consistent(AfterResume(st))
    ensures Consistent(AfterPlay(st))
    ensures Consistent(AfterStop(st))
    ensures Consistent(AfterEnd(st))
    ensures Consistent(AfterError(st))
    ensures Consistent(AfterClick(st))
  {
  }

  /** `pause` acts only while playing, `resume` only while paused. */
  lemma PauseResumeGuards(st: Playback)
    ensures AfterPause(st) != st <==> st.isPlaying
    ensures AfterResume(st) != st <==> st.isPaused
  {
  }

  /**
   * `play` does nothing while playing or without commentary, resumes when
   * paused, and otherwise starts at the current sentence.
   */
  lemma PlayCases(st: Playback)
    requires Consistent(st)
    ensures st.isPlaying || (!st.isPaused && st.text == "") ==> AfterPlay(st) == st
    ensures st.isPaused ==> AfterPlay(st) == AfterResume(st)
    ensures !st.isPlaying && !st.isPaused && st.text != "" ==>
      var p := AfterPlay(st);
      && st.index < |st.sentences|
      && p.isPlaying && !p.isPaused && p.index == st.index
      && p.effects == st.effects + [SentenceChanged(st.sentences[st.index], st.index), Spoken(st.sentences[st.index])]
  {
  }

  /** Stopping and playing again starts over at the first sentence. */
  lemma StopThenPlayRestarts(st: Playback)
    requires Consistent(st) && st.text != ""
    ensures var p := AfterPlay(AfterStop(st));
      && p.isPlaying && !p.isPaused && p.index == 0
      && p.effects == st.effects + [SynthCancelled, SentenceChanged(st.sentences[0], 0), Spoken(st.sentences[0])]
  {
  }

  /** Pausing and playing again resumes where it was, without speaking anything new. */
  lemma PauseThenPlayResumes(st: Playback)
    requires Consistent(st) && st.isPlaying
    ensures var p := AfterPlay(AfterPause(st));
      && p == st.(effects := st.effects + [SynthPaused, SynthResumed])
  {
  }

  /** `onend` moves to the next sentence, or past the last one ends playback at index 0. */
  lemma EndAdvances(st: Playback)
    requires Consistent(st)
    ensures var p := AfterEnd(st);
      if st.index + 1 < |st.sentences| then
        && p.index == st.index + 1 && p.isPlaying == st.isPlaying
        && p.effects == st.effects + [SentenceChanged(st.sentences[st.index + 1], st.index + 1), Spoken(st.sentences[st.index + 1])]
      else
        && p.index == 0 && !p.isPlaying
        && p.effects == st.effects + [CommentaryEnded]
  {
  }

  /** The sentences handed to the speech engine, in order. */
  function SpokenSentences(effects: seq<Effect>): seq<string>
  {
    if |effects| == 0 then []
    else
      var e := effects[|effects| - 1];
      SpokenSentences(effects[..|effects| - 1]) + (if e.Spoken? then [e.sentence] else [])
  }

  lemma SpokenSentencesAppend(effects: seq<Effect>, more: seq<Effect>)
    ensures SpokenSentences(effects + more) == SpokenSentences(effects) + SpokenSentences(more)
    decreases |more|
  {
    if |more| == 0 {
      assert effects + more == effects;
    } else {
      var init := more[..|more| - 1];
      assert (effects + more)[..|effects + more| - 1] == effects + init;
      SpokenSentencesAppend(effects, init);
    }
  }

  /** `n` utterances ending one after the other. */
  function Ends(st: Playback, n: nat): Playback
  {
    if n == 0 then st else AfterEnd(Ends(st, n - 1))
  }

  /** One sentence announced and spoken adds exactly it to the spoken sentences; the end callback adds none. */
  lemma SpokenOfSteps(s: string, n: nat)
    ensures SpokenSentences([SentenceChanged(s, n), Spoken(s)]) == [s]
    ensures SpokenSentences([CommentaryEnded]) == []
  {
    assert [SentenceChanged(s, n), Spoken(s)][..1] == [SentenceChanged(s, n)];
    assert [SentenceChanged(s, n)][..0] == [];
    assert SpokenSentences([SentenceChanged(s, n)]) == [];
    assert [CommentaryEnded][..0] == [];
  }

  /** The end of an utterance that is not the last. */
  lemma EndStep(q: Playback)
    requires q.index + 1 < |q.sentences|
    ensures var s := q.sentences[q.index + 1];
      AfterEnd(q) == q.(index := q.index + 1, effects := q.effects + [SentenceChanged(s, q.index + 1), Spoken(s)])
  {
  }

  lemma {:induction false} EndsSpeakInOrder(st: Playback, n: nat)
    requires st.isPlaying && !st.isPaused && st.index == 0 && n < |st.sentences|
    ensures var p := Ends(st, n);
      && p == st.(index := n, effects := p.effects)
      && SpokenSentences(p.effects) == SpokenSentences(st.effects) + st.sentences[1..n + 1]
  {
    if n > 0 {
      EndsSpeakInOrder(st, n - 1);
      var q := Ends(st, n - 1);
      var s := st.sentences[n];
      EndStep(q);
      SpokenSentencesAppend(q.effects, [SentenceChanged(s, n), Spoken(s)]);
      SpokenOfSteps(s, n);
      assert st.sentences[1..n + 1] == st.sentences[1..n] + [s];
    }
  }

  lemma SpokenAfterEnd(effects: seq<Effect>)
    ensures SpokenSentences(effects + [CommentaryEnded]) == SpokenSentences(effects)
  {
    assert (effects + [CommentaryEnded])[..|effects|] == effects;
  }

  /** The end of the last utterance. */
  lemma LastEnd(q: Playback)
    requires q.index + 1 >= |q.sentences|
    ensures AfterEnd(q) == q.(isPlaying := false, index := 0, effects := q.effects + [CommentaryEnded])
  {
  }

  /** Playing a freshly set, non-empty commentary from idle speaks its first sentence. */
  lemma PlayFromStart(st: Playback, text: string)
    requires !st.isPlaying && !st.isPaused && text != ""
    ensures var ss := SplitIntoSentences(text);
      AfterPlay(AfterSetCommentary(st, text)) ==
        Playback(text, ss, true, false, 0, st.effects + [SentenceChanged(ss[0], 0), Spoken(ss[0])])
  {
  }

  /** From the first sentence, letting every utterance end speaks the remaining sentences and then stops. */
  lemma RunToEnd(started: Playback)
    requires started.isPlaying && !started.isPaused && started.index == 0 && |started.sentences| >= 1
    ensures var ss := started.sentences;
      var done := Ends(started, |ss|);
      && SpokenSentences(done.effects) == SpokenSentences(started.effects) + ss[1..]
      && !done.isPlaying && !done.isPaused && done.index == 0
      && done.effects[|done.effects| - 1] == CommentaryEnded
  {
    var ss := started.sentences;
    var n := |ss| - 1;
    EndsSpeakInOrder(started, n);
    var last := Ends(started, n);
    assert last.sentences == ss && last.index == n;
    LastEnd(last);
    assert Ends(started, |ss|) == AfterEnd(last);
    SpokenAfterEnd(last.effects);
    assert ss[1..n + 1] == ss[1..];
  }

  /**
   * Setting a commentary and playing it from idle, then letting every
   * utterance end, speaks each sentence once in order and leaves the reader
   * idle at the first sentence with the end callback fired.
   */
  lemma PlaysThrough(st: Playback, text: string)
    requires !st.isPlaying && !st.isPaused && text != ""
    ensures var ss := SplitIntoSentences(text);
      var done := Ends(AfterPlay(AfterSetCommentary(st, text)), |ss|);
      && SpokenSentences(done.effects) == SpokenSentences(st.effects) + ss
      && !done.isPlaying && !done.isPaused && done.index == 0
      && done.effects[|done.effects| - 1] == CommentaryEnded
  {
    var ss := SplitIntoSentences(text);
    var started := AfterPlay(AfterSetCommentary(st, text));
    PlayFromStart(st, text);
    FirstSpoken(st.effects, ss[0]);
    RunToEnd(started);
    HeadThenRest(SpokenSentences(st.effects), ss);
  }

  lemma FirstSpoken(effects: seq<Effect>, s: string)
    ensures SpokenSentences(effects + [SentenceChanged(s, 0), Spoken(s)]) == SpokenSentences(effects) + [s]
  {
    SpokenSentencesAppend(effects, [SentenceChanged(s, 0), Spoken(s)]);
    SpokenOfSteps(s, 0);
  }

  lemma HeadThenRest(base: seq<string>, ss: seq<string>)
    requires |ss| >= 1
    ensures base + [ss[0]] + ss[1..] == base + ss
  {
    assert ss == [ss[0]] + ss[1..];
  }

  // ---------------------------------------------------------------------
  // The class

  class SpeechSynthesizer {
    var commentaryText: string
    var isPlaying: bool
    var isPaused: bool
    var sentences: seq<string>
    var currentSentenceIndex: nat
    var effects: seq<Effect>

    function State(): Playback
      reads this
    {
      Playback(commentaryText, sentences, isPlaying, isPaused, currentSentenceIndex, effects)
    }

    ghost predicate Valid()
      reads this
    {
      Consistent(State())
    }

    constructor ()
      ensures State() == Initial && Valid()
    {
      commentaryText := "";
      isPlaying := false;
      isPaused := false;
      sentences := [];
      currentSentenceIndex := 0;
      effects := [];
    }

    method SetCommentary(text: string)
      requires Valid()
      modifies this
      ensures Valid() && State() == AfterSetCommentary(old(State()), text)
    {
      commentaryText := text;
      sentences := SplitIntoSentences(text);
      currentSentenceIndex := 0;
    }

    /** Also entered from `OnEnd` with the index one past the current sentence. */
    method SpeakNextSentence()
      requires Coherent(State())
      modifies this
      ensures Valid() && State() == AfterSpeakNext(old(State()))
    {
      if currentSentenceIndex >= |sentences| {
        isPlaying := false;
        currentSentenceIndex := 0;
        effects := effects + [CommentaryEnded];
        return;
      }
      var sentence := sentences[currentSentenceIndex];
      effects := effects + [SentenceChanged(sentence, currentSentenceIndex), Spoken(sentence)];
    }

    method Play()
      requires Valid()
      modifies this
      ensures Valid() && State() == AfterPlay(old(State()))
    {
      if isPlaying {
        return;
      }
      if isPaused {
        Resume();
        return;
      }
      if commentaryText == "" {
        return;
      }
      isPlaying := true;
      SpeakNextSentence();
    }

    method Pause()
      requires Valid()
      modifies this
      ensures Valid() && State() == AfterPause(old(State()))
    {
      if !isPlaying {
        return;
      }
      effects := effects + [SynthPaused];
      isPaused := true;
      isPlaying := false;
    }

    method Resume()
      requires Valid()
      modifies this
      ensures Valid() && State() == AfterResume(old(State()))
    {
      if !isPaused {
        return;
      }
      effects := effects + [SynthResumed];
      isPaused := false;
      isPlaying := true;
    }

    method Stop()
      requires Valid()
      modifies this
      ensures Valid() && State() == AfterStop(old(State()))
    {
      effects := effects + [SynthCancelled];
      isPaused := false;
      isPlaying := false;
      currentSentenceIndex := 0;
    }

    /** The `onend` handler of the current utterance. */
    method OnEnd()
      requires Valid()
      modifies this
      ensures Valid() && State() == AfterEnd(old(State()))
    {
      currentSentenceIndex := currentSentenceIndex + 1;
      SpeakNextSentence();
    }

    /** The `onerror` handler of the current utterance. */
    method OnError()
      requires Valid()
      modifies this
      ensures Valid() && State() == AfterError(old(State()))
    {
      isPlaying := false;
    }

    /** The play button's click handler. */
    method Click()
      requires Valid()
      modifies this
      ensures Valid() && State() == AfterClick(old(State()))
    {
      if isPlaying || isPaused {
        Stop();
      } else {
        Play();
      }
    }
  }
}
