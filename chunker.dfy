/**
 * Long-text splitting for speech synthesis (`split_long_text`): the text is
 * cut into sentences at ". ", each sentence gets its period back, and the
 * sentences are packed greedily, in order, into chunks of bounded length.
 */
module Chunker {
  import opened Text

  /** The default `max_length`. */
  const DefaultMaxLength: int := 5000

  /** `sentence += '.'` unless it already ends with one. */
  function WithPeriod(s: string): (r: string)
    ensures EndsWithChar(r, '.')
    ensures r == s || r == s + "."
  {
    if EndsWithChar(s, '.') then s else s + "."
  }

  /** The sentences the loop sees: the pieces of the text, each with its period. */
  function WithPeriods(pieces: seq<string>): (r: seq<string>)
    ensures |r| == |pieces|
    ensures forall i :: 0 <= i < |r| ==> EndsWithChar(r[i], '.')
    ensures forall i :: 0 <= i < |r| ==> r[i] == pieces[i] || r[i] == pieces[i] + "."
    ensures forall i :: 0 <= i < |r| && EndsWithChar(pieces[i], '.') ==> r[i] == pieces[i]
  {
    seq(|pieces|, i requires 0 <= i < |pieces| => WithPeriod(pieces[i]))
  }

  function SentencesOf(text: string): (r: seq<string>)
    ensures |r| >= 1
  {
    WithPeriods(Split(text, ". "))
  }

  /** The loop variables `chunks` and `current_chunk`. */
  datatype Packing = Packing(chunks: seq<string>, current: string)

  /** One iteration: start a new chunk when the sentence does not fit, else append it after a space. */
  function PackStep(p: Packing, sentence: string, maxLength: int): Packing
  {
    if |p.current| + |sentence| + 1 > maxLength then Packing(p.chunks + [p.current], sentence)
    else if |p.current| > 0 then Packing(p.chunks, p.current + " " + sentence)
    else Packing(p.chunks, sentence)
  }

  /** The loop over `sentences`, in order. */
  function PackAlong(sentences: seq<string>, maxLength: int): Packing
  {
    if |sentences| == 0 then Packing([], "")
    else PackStep(PackAlong(sentences[..|sentences| - 1], maxLength), sentences[|sentences| - 1], maxLength)
  }

  /** The result: the closed chunks, then the current one unless it is empty. */
  function Finish(p: Packing): seq<string>
  {
    if |p.current| > 0 then p.chunks + [p.current] else p.chunks
  }

  /** `split_long_text(text, max_length)`, as a value. */
  function ChunksOf(text: string, maxLength: int): seq<string>
  {
    Finish(PackAlong(SentencesOf(text), maxLength))
  }

  /** `split_long_text(text, max_length)`. */
  method SplitLongText(text: string, maxLength: int) returns (chunks: seq<string>)
    ensures chunks == ChunksOf(text, maxLength)
  {
    var sentences := Split(text, ". ");
    chunks := [];
    var current := "";
    ghost var periods := WithPeriods(sentences);
    for i := 0 to |sentences|
      invariant Packing(chunks, current) == PackAlong(periods[..i], maxLength)
    {
      PackAlongSnoc(periods, i, maxLength);
      var sentence := sentences[i];
      if !EndsWithChar(sentence, '.') {
        sentence := sentence + ".";
      }
      assert sentence == WithPeriod(sentences[i]);
      if |current| + |sentence| + 1 > maxLength {
        chunks := chunks + [current];
        current := sentence;
      } else {
        if |current| > 0 {
          current := current + " ";
        }
        current := current + sentence;
      }
    }
    assert periods[..|periods|] == periods;
    if |current| > 0 {
      chunks := chunks + [current];
    }
  }

  lemma PackAlongSnoc(sentences: seq<string>, i: nat, maxLength: int)
    requires i < |sentences|
    ensures PackAlong(sentences[..i + 1], maxLength) == PackStep(PackAlong(sentences[..i], maxLength), sentences[i], maxLength)
  {
    assert sentences[..i + 1][..i] == sentences[..i];
  }

  // ---------------------------------------------------------------------
  // Properties of the packing, for any sentences that end with a period.

  predicate AllEndWithPeriod(sentences: seq<string>)
  {
    forall i :: 0 <= i < |sentences| ==> EndsWithChar(sentences[i], '.')
  }

  /** The non-empty chunks, in order. */
  function Present(chunks: seq<string>): seq<string>
  {
    if |chunks| == 0 then []
    else Present(chunks[..|chunks| - 1]) + (if |chunks[|chunks| - 1]| > 0 then [chunks[|chunks| - 1]] else [])
  }

  lemma PresentSnoc(chunks: seq<string>, c: string)
    ensures Present(chunks + [c]) == Present(chunks) + (if |c| > 0 then [c] else [])
  {
    assert (chunks + [c])[..|chunks|] == chunks;
  }

  /**
   * After at least one sentence: the current chunk ends with a period, only
   * the first closed chunk can be empty (exactly when the first sentence
   * is at least `maxLength` long), and every closed non-empty chunk ends with
   * a period.
   */
  lemma {:induction false} PackShape(sentences: seq<string>, maxLength: int)
    requires |sentences| >= 1 && AllEndWithPeriod(sentences)
    ensures var p := PackAlong(sentences, maxLength);
      && EndsWithChar(p.current, '.')
      && (forall i :: 0 < i < |p.chunks| ==> EndsWithChar(p.chunks[i], '.'))
      && (|p.chunks| > 0 ==> (p.chunks[0] == "" <==> |sentences[0]| >= maxLength))
      && (|p.chunks| > 0 && p.chunks[0] != "" ==> EndsWithChar(p.chunks[0], '.'))
  {
    var init := sentences[..|sentences| - 1];
    var s := sentences[|sentences| - 1];
    if |init| == 0 {
      assert s == sentences[0];
    } else {
      assert AllEndWithPeriod(init) by {
        forall i | 0 <= i < |init| ensures EndsWithChar(init[i], '.') {
          assert init[i] == sentences[i];
        }
      }
      PackShape(init, maxLength);
      assert init[0] == sentences[0];
      var p := PackAlong(init, maxLength);
      var q := PackStep(p, s, maxLength);
      assert EndsWithChar(s, '.');
      if |p.current| + |s| + 1 > maxLength {
        assert q.chunks == p.chunks + [p.current];
        if |p.chunks| == 0 {
          PackFirstFits(init, maxLength);
        }
      } else {
        var c := p.current + " " + s;
        assert q.current == c;
        assert c[|c| - 1] == s[|s| - 1];
      }
    }
  }

  /** The non-empty chunks and the current one, joined by spaces, are the sentences joined by spaces. */
  lemma {:induction false} PackPreservesText(sentences: seq<string>, maxLength: int)
    requires |sentences| >= 1 && AllEndWithPeriod(sentences)
    ensures var p := PackAlong(sentences, maxLength);
      Join(Present(p.chunks) + [p.current], " ") == Join(sentences, " ")
  {
    var init := sentences[..|sentences| - 1];
    var s := sentences[|sentences| - 1];
    assert sentences == init + [s];
    if |init| == 0 {
      var p := PackAlong(init, maxLength);
      assert p == Packing([], "");
      if 0 + |s| + 1 > maxLength {
        PresentSnoc([], "");
        assert Present([""]) == [];
      }
    } else {
      assert AllEndWithPeriod(init) by {
        forall i | 0 <= i < |init| ensures EndsWithChar(init[i], '.') {
          assert init[i] == sentences[i];
        }
      }
      PackPreservesText(init, maxLength);
      PackShape(init, maxLength);
      PackAlongSnoc(sentences, |sentences| - 1, maxLength);
      PreservesStep(PackAlong(init, maxLength), init, s, maxLength);
    }
  }

  /** One sentence more keeps the packed text equal to the joined sentences. */
  lemma PreservesStep(p: Packing, done: seq<string>, s: string, maxLength: int)
    requires |done| >= 1 && EndsWithChar(p.current, '.')
    requires Join(Present(p.chunks) + [p.current], " ") == Join(done, " ")
    ensures var q := PackStep(p, s, maxLength);
      Join(Present(q.chunks) + [q.current], " ") == Join(done + [s], " ")
  {
    JoinSnoc(done, s, " ");
    if |p.current| + |s| + 1 > maxLength {
      PresentSnoc(p.chunks, p.current);
      CloseStep(Present(p.chunks), p.current, s);
    } else {
      AppendStep(Present(p.chunks), p.current, s);
    }
  }

  /** Closing the current chunk and starting one with `s` adds `" " + s` to the joined text. */
  lemma CloseStep(pc: seq<string>, cur: string, s: string)
    ensures Join(pc + [cur] + [s], " ") == Join(pc + [cur], " ") + " " + s
  {
    JoinSnoc(pc + [cur], s, " ");
  }

  /** Appending `s` to the current chunk after a space adds `" " + s` to the joined text. */
  lemma AppendStep(pc: seq<string>, cur: string, s: string)
    ensures Join(pc + [cur + " " + s], " ") == Join(pc + [cur], " ") + " " + s
  {
    if |pc| == 0 {
      assert Join([cur + " " + s], " ") == cur + " " + s;
      assert Join([cur], " ") == cur;
    } else {
      JoinSnoc(pc, cur + " " + s, " ");
      JoinSnoc(pc, cur, " ");
    }
  }

  /** A chunk longer than `maxLength` holds a single sentence, or is the empty first chunk. */
  lemma {:induction false} PackBounded(sentences: seq<string>, maxLength: int)
    ensures var p := PackAlong(sentences, maxLength);
      && (|p.current| <= maxLength || p.current in sentences || p.current == "")
      && (forall i :: 0 <= i < |p.chunks| ==> |p.chunks[i]| <= maxLength || p.chunks[i] in sentences || p.chunks[i] == "")
  {
    if |sentences| > 0 {
      var init := sentences[..|sentences| - 1];
      PackBounded(init, maxLength);
      assert forall x :: x in init ==> x in sentences;
    }
  }

  // ---------------------------------------------------------------------
  // Properties of `split_long_text`.

  /**
   * The chunks of a text: never empty; the last chunk is non-empty; an empty
   * chunk occurs only first, and exactly when the first sentence is at least
   * `maxLength` long; every non-empty chunk ends with a period.
   */
  lemma ChunksShape(text: string, maxLength: int)
    ensures var r, ss := ChunksOf(text, maxLength), SentencesOf(text);
      && |r| >= 1
      && |r[|r| - 1]| > 0
      && (forall i :: 0 < i < |r| ==> r[i] != "")
      && (r[0] == "" <==> |ss[0]| >= maxLength)
      && (forall i :: 0 <= i < |r| && r[i] != "" ==> EndsWithChar(r[i], '.'))
  {
    var ss := SentencesOf(text);
    PackShape(ss, maxLength);
    var p := PackAlong(ss, maxLength);
    var r := ChunksOf(text, maxLength);
    assert r == p.chunks + [p.current];
    if |p.chunks| == 0 {
      assert |ss[0]| < maxLength by {
        PackFirstFits(ss, maxLength);
      }
    }
  }

  /** If no chunk was closed, the first sentence fitted. */
  lemma {:induction false} PackFirstFits(sentences: seq<string>, maxLength: int)
    requires |sentences| >= 1
    requires |PackAlong(sentences, maxLength).chunks| == 0
    ensures |sentences[0]| < maxLength
  {
    var init := sentences[..|sentences| - 1];
    if |init| == 0 {
      assert sentences[0] == sentences[|sentences| - 1];
    } else {
      PackChunksGrow(init, sentences[|sentences| - 1], maxLength);
      PackFirstFits(init, maxLength);
      assert init[0] == sentences[0];
    }
  }

  lemma PackChunksGrow(init: seq<string>, s: string, maxLength: int)
    ensures |PackAlong(init, maxLength).chunks| <= |PackAlong(init + [s], maxLength).chunks|
  {
    assert (init + [s])[..|init|] == init;
  }

  /** The non-empty chunks, joined by spaces, are the sentences joined by spaces. */
  lemma ChunksPreserveText(text: string, maxLength: int)
    ensures Join(Present(ChunksOf(text, maxLength)), " ") == Join(SentencesOf(text), " ")
  {
    var ss := SentencesOf(text);
    PackPreservesText(ss, maxLength);
    PackShape(ss, maxLength);
    var p := PackAlong(ss, maxLength);
    PresentSnoc(p.chunks, p.current);
  }

  /** A chunk longer than `maxLength` is a single sentence, or the empty first chunk. */
  lemma ChunksBounded(text: string, maxLength: int)
    ensures var r := ChunksOf(text, maxLength);
      forall i :: 0 <= i < |r| ==> |r[i]| <= maxLength || r[i] in SentencesOf(text) || r[i] == ""
  {
    PackBounded(SentencesOf(text), maxLength);
  }

  /** The empty text is one sentence, ".". */
  lemma EmptyTextIsPeriod(maxLength: int)
    requires maxLength > 1
    ensures ChunksOf("", maxLength) == ["."]
  {
    assert Split("", ". ") == [""];
    assert WithPeriod("") == ".";
    assert SentencesOf("") == ["."];
    assert PackAlong(["."], maxLength) == Packing([], ".") by {
      assert ["."][..0] == [];
    }
  }
}
