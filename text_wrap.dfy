/**
 * The two greedy word-wrap loops of the template renderer: the service description
 * (at most 80 per line, the separating space counted) and the observations (85 per
 * line, the separating space not counted, so a line of several words can reach 86).
 * Lengths are JavaScript's `.length`, in UTF-16 code units.
 */
module TextWrap {
  import opened Text

  /** How the fit test measures a candidate line. */
  datatype FitRule =
    | CountSeparator   // `(currentLine + ' ' + word).length <= limit`
    | IgnoreSeparator  // `(currentLine + word).length <= limit`

  /** How far past `limit` a line of several words can reach under `rule`. */
  function Slack(rule: FitRule): nat
  {
    if rule == CountSeparator then 0 else 1
  }

  /** The fit test of the loop, in UTF-16 code units. */
  predicate Fits(rule: FitRule, cur: string, word: string, limit: nat)
  {
    Utf16Length(cur) + (if rule == CountSeparator then 1 else 0) + Utf16Length(word) <= limit
  }

  /** The loop's variables: the lines pushed so far and `currentLine`. */
  datatype WrapState = WrapState(lines: seq<string>, cur: string)

  /** One iteration: extend the current line, or push it (when non-empty) and start over with the word. */
  function Step(st: WrapState, word: string, limit: nat, rule: FitRule): WrapState
  {
    if Fits(rule, st.cur, word, limit) then
      WrapState(st.lines, st.cur + (if st.cur != [] then " " else []) + word)
    else
      WrapState(st.lines + (if st.cur != [] then [st.cur] else []), word)
  }

  /** The loop's state after the words of `words`, in order. */
  function Fold(words: seq<string>, limit: nat, rule: FitRule): WrapState
    decreases |words|
  {
    if words == [] then WrapState([], [])
    else Step(Fold(words[..|words| - 1], limit, rule), words[|words| - 1], limit, rule)
  }

  /** The lines after the loop and the final `if (currentLine) wrappedLines.push(currentLine)`. */
  function Finish(st: WrapState): seq<string>
  {
    st.lines + (if st.cur != [] then [st.cur] else [])
  }

  function Wrap(words: seq<string>, limit: nat, rule: FitRule): seq<string>
  {
    Finish(Fold(words, limit, rule))
  }

  // ---------------------------------------------------------------------------
  // The two texts
  // ---------------------------------------------------------------------------

  const DescriptionLimit: nat := 80
  const ObservationLimit: nat := 85

  /** The description: cut to 3 lines' worth (240 characters), split on spaces, wrapped at 80. */
  function DescriptionLines(text: string): seq<string>
  {
    Wrap(Split(Truncate(text, DescriptionLimit * 3), ' '), DescriptionLimit, CountSeparator)
  }

  /** One observation segment: kept verbatim when it fits, word-wrapped otherwise. */
  function SegmentLines(segment: string): seq<string>
  {
    if Utf16Length(segment) <= ObservationLimit then [segment]
    else Wrap(Split(segment, ' '), ObservationLimit, IgnoreSeparator)
  }

  function SegmentsLines(segments: seq<string>): seq<string>
    decreases |segments|
  {
    if segments == [] then []
    else SegmentsLines(segments[..|segments| - 1]) + SegmentLines(segments[|segments| - 1])
  }

  /** The observations: cut to 4 lines' worth (340 characters), split on line breaks, each segment wrapped. */
  function ObservationLines(text: string): seq<string>
  {
    SegmentsLines(Split(Truncate(text, ObservationLimit * 4), '\n'))
  }

  // ---------------------------------------------------------------------------
  // The loops
  // ---------------------------------------------------------------------------

  /** `words.forEach(...)` followed by the final push. */
  method WrapWords(words: seq<string>, limit: nat, rule: FitRule) returns (wrapped: seq<string>)
    ensures wrapped == Wrap(words, limit, rule)
  {
    wrapped := [];
    var currentLine := "";
    var i := 0;
    while i < |words|
      invariant 0 <= i <= |words|
      invariant WrapState(wrapped, currentLine) == Fold(words[..i], limit, rule)
    {
      var word := words[i];
      if Fits(rule, currentLine, word, limit) {
        currentLine := currentLine + (if currentLine != [] then " " else []) + word;
      } else {
        if currentLine != [] {
          wrapped := wrapped + [currentLine];
        }
        currentLine := word;
      }
      assert words[..i + 1][..i] == words[..i];
      i := i + 1;
    }
    assert words[..i] == words;
    if currentLine != [] {
      wrapped := wrapped + [currentLine];
    }
  }

  /** The description block: truncation, the split into words and the wrap loop. */
  method WrapDescription(descricao: string) returns (wrapped: seq<string>)
    ensures wrapped == DescriptionLines(descricao)
  {
    var texto := descricao;
    if |texto| > DescriptionLimit * 3 {
      texto := texto[..DescriptionLimit * 3 - 3] + "...";
    }
    var words := Split(texto, ' ');
    wrapped := WrapWords(words, DescriptionLimit, CountSeparator);
  }

  /** The observations block: truncation, the split into segments and the nested wrap loops. */
  method WrapObservations(observacoes: string) returns (wrapped: seq<string>)
    ensures wrapped == ObservationLines(observacoes)
  {
    var texto := observacoes;
    if |texto| > ObservationLimit * 4 {
      texto := texto[..ObservationLimit * 4 - 3] + "...";
    }
    assert texto == Truncate(observacoes, ObservationLimit * 4);
    var segments := Split(texto, '\n');
    wrapped := [];
    var s := 0;
    while s < |segments|
      invariant 0 <= s <= |segments|
      invariant wrapped == SegmentsLines(segments[..s])
    {
      var line := segments[s];
      SegmentsLinesSnoc(segments, s);
      if Utf16Length(line) <= ObservationLimit {
        wrapped := wrapped + [line];
      } else {
        // the inner `words.forEach`, pushing into the same list
        var more := WrapWords(Split(line, ' '), ObservationLimit, IgnoreSeparator);
        wrapped := wrapped + more;
      }
      s := s + 1;
    }
    assert segments[..s] == segments;
  }

  lemma SegmentsLinesSnoc(segments: seq<string>, s: nat)
    requires s < |segments|
    ensures SegmentsLines(segments[..s + 1]) == SegmentsLines(segments[..s]) + SegmentLines(segments[s])
  {
    assert segments[..s + 1][..s] == segments[..s];
  }

  // ---------------------------------------------------------------------------
  // What the wrap guarantees
  // ---------------------------------------------------------------------------

  /** Every line of the loop's state is within `limit + Slack(rule)`, or is one of the words. */
  predicate LinesWithin(lines: seq<string>, bound: nat, words: seq<string>)
  {
    forall k :: 0 <= k < |lines| ==> Utf16Length(lines[k]) <= bound || lines[k] in words
  }

  lemma {:induction false} FoldWithin(words: seq<string>, limit: nat, rule: FitRule)
    ensures var st := Fold(words, limit, rule);
      LinesWithin(st.lines, limit + Slack(rule), words)
      && (Utf16Length(st.cur) <= limit + Slack(rule) || st.cur in words)
    decreases |words|
  {
    if words != [] {
      var init := words[..|words| - 1];
      var w := words[|words| - 1];
      FoldWithin(init, limit, rule);
      var st := Fold(init, limit, rule);
      assert forall x :: x in init ==> x in words;
      assert w in words;
      if Fits(rule, st.cur, w, limit) && st.cur != [] {
        Utf16LengthAppend(st.cur, " ");
        Utf16LengthAppend(st.cur + " ", w);
        assert Utf16Length(" ") == 1 by { assert " "[..0] == []; }
      } else if Fits(rule, st.cur, w, limit) {
        assert st.cur + [] + w == w;
      }
      if !Fits(rule, st.cur, w, limit) && st.cur != [] {
        var lines := st.lines + [st.cur];
        assert forall k :: 0 <= k < |st.lines| ==> lines[k] == st.lines[k];
      }
    }
  }

  /**
   * A wrapped line is never longer than `limit + Slack(rule)` unless it is a single
   * word of the input: words are never split.
   */
  lemma WrapWithin(words: seq<string>, limit: nat, rule: FitRule)
    ensures LinesWithin(Wrap(words, limit, rule), limit + Slack(rule), words)
  {
    FoldWithin(words, limit, rule);
    var st := Fold(words, limit, rule);
    var lines := Finish(st);
    assert forall k :: 0 <= k < |st.lines| ==> lines[k] == st.lines[k];
  }

  /** No word is empty. */
  predicate NoEmptyWord(words: seq<string>)
  {
    forall k :: 0 <= k < |words| ==> words[k] != []
  }

  /** `Join(ps + [a + sep + b]) == Join(ps + [a]) + sep + b`. */
  lemma JoinExtendLast(ps: seq<string>, a: string, sep: string, b: string)
    ensures Join(ps + [a + sep + b], sep) == Join(ps + [a], sep) + sep + b
  {
    if ps != [] {
      JoinSnoc(ps, sep, a + sep + b);
      JoinSnoc(ps, sep, a);
    }
  }

  /** One step of the loop adds `" " + w` to the joined lines. */
  lemma StepJoin(st: WrapState, w: string, limit: nat, rule: FitRule)
    requires st.cur != [] && w != []
    ensures var next := Step(st, w, limit, rule);
      next.cur != [] && Join(next.lines + [next.cur], " ") == Join(st.lines + [st.cur], " ") + " " + w
  {
    if Fits(rule, st.cur, w, limit) {
      assert Step(st, w, limit, rule) == WrapState(st.lines, st.cur + " " + w);
      JoinExtendLast(st.lines, st.cur, " ", w);
    } else {
      assert Step(st, w, limit, rule) == WrapState(st.lines + [st.cur], w);
      JoinSnoc(st.lines + [st.cur], " ", w);
    }
  }

  lemma {:induction false} FoldJoin(words: seq<string>, limit: nat, rule: FitRule)
    requires words != [] && NoEmptyWord(words)
    ensures var st := Fold(words, limit, rule);
      st.cur != [] && Join(st.lines + [st.cur], " ") == Join(words, " ")
    decreases |words|
  {
    var init := words[..|words| - 1];
    var w := words[|words| - 1];
    assert w != [];
    if init == [] {
      assert words == [w];
      FoldOne(w, limit, rule);
    } else {
      assert NoEmptyWord(init) by {
        forall k | 0 <= k < |init| ensures init[k] != [] {
          assert init[k] == words[k];
        }
      }
      FoldJoin(init, limit, rule);
      assert Fold(words, limit, rule) == Step(Fold(init, limit, rule), w, limit, rule);
      StepJoin(Fold(init, limit, rule), w, limit, rule);
      assert Join(words, " ") == Join(init, " ") + " " + w by {
        assert init + [w] == words;
        JoinSnoc(init, " ", w);
      }
    }
  }

  /** The loop over a single word leaves just that word on the current line. */
  lemma FoldOne(w: string, limit: nat, rule: FitRule)
    ensures Fold([w], limit, rule) == WrapState([], w)
  {
    assert [w][..0] == [];
    assert [] + [] + w == w;
  }

  /** When no word is empty, joining the wrapped lines with spaces gives back the joined words. */
  lemma WrapJoin(words: seq<string>, limit: nat, rule: FitRule)
    requires NoEmptyWord(words)
    ensures Join(Wrap(words, limit, rule), " ") == Join(words, " ")
  {
    if words != [] {
      FoldJoin(words, limit, rule);
    }
  }

  /**
   * Description lines are at most 80 code units or a single space-free word; for a text
   * whose words are separated by single spaces, they join back to the truncated text.
   */
  lemma DescriptionFacts(text: string)
    ensures forall k :: 0 <= k < |DescriptionLines(text)| ==>
      Utf16Length(DescriptionLines(text)[k]) <= DescriptionLimit || ' ' !in DescriptionLines(text)[k]
    ensures NoEmptyWord(Split(Truncate(text, 240), ' ')) ==>
      Join(DescriptionLines(text), " ") == Truncate(text, 240)
  {
    var words := Split(Truncate(text, 240), ' ');
    WrapWithin(words, DescriptionLimit, CountSeparator);
    if NoEmptyWord(words) {
      WrapJoin(words, DescriptionLimit, CountSeparator);
      JoinSplit(Truncate(text, 240), ' ');
    }
  }

  /** Segments that fit are kept verbatim, empty ones included. */
  lemma {:induction false} ShortSegmentsVerbatim(segments: seq<string>)
    requires forall k :: 0 <= k < |segments| ==> Utf16Length(segments[k]) <= ObservationLimit
    ensures SegmentsLines(segments) == segments
    decreases |segments|
  {
    if segments != [] {
      ShortSegmentsVerbatim(segments[..|segments| - 1]);
      assert segments[..|segments| - 1] + [segments[|segments| - 1]] == segments;
    }
  }

  lemma {:induction false} SegmentsWithin(segments: seq<string>)
    ensures forall k :: 0 <= k < |SegmentsLines(segments)| ==>
      Utf16Length(SegmentsLines(segments)[k]) <= ObservationLimit + 1 || ' ' !in SegmentsLines(segments)[k]
    decreases |segments|
  {
    if segments != [] {
      var init := segments[..|segments| - 1];
      var last := segments[|segments| - 1];
      SegmentsWithin(init);
      if Utf16Length(last) > ObservationLimit {
        WrapWithin(Split(last, ' '), ObservationLimit, IgnoreSeparator);
      }
      var a := SegmentsLines(init);
      var b := SegmentLines(last);
      assert forall k :: |a| <= k < |a| + |b| ==> (a + b)[k] == b[k - |a|];
    }
  }

  /**
   * Observation lines are at most 86 code units (85 plus the uncounted space) or a
   * single space-free word; when every line-break segment of the truncated text fits in
   * 85 code units, the segments are drawn as they are.
   */
  lemma ObservationFacts(text: string)
    ensures forall k :: 0 <= k < |ObservationLines(text)| ==>
      Utf16Length(ObservationLines(text)[k]) <= ObservationLimit + 1 || ' ' !in ObservationLines(text)[k]
    ensures (forall k :: 0 <= k < |Split(Truncate(text, 340), '\n')| ==>
               Utf16Length(Split(Truncate(text, 340), '\n')[k]) <= ObservationLimit) ==>
      ObservationLines(text) == Split(Truncate(text, 340), '\n')
  {
    SegmentsWithin(Split(Truncate(text, 340), '\n'));
    if forall k :: 0 <= k < |Split(Truncate(text, 340), '\n')| ==>
        Utf16Length(Split(Truncate(text, 340), '\n')[k]) <= ObservationLimit {
      ShortSegmentsVerbatim(Split(Truncate(text, 340), '\n'));
    }
  }

  /** Two words that each fit alone share a line exactly when the pair passes the fit test. */
  lemma WrapTwoWords(a: string, b: string, limit: nat, rule: FitRule)
    requires a != [] && Fits(rule, [], a, limit)
    ensures Wrap([a, b], limit, rule) == if Fits(rule, a, b, limit) then [a + " " + b] else [a, b]
  {
    assert [a, b][..1] == [a];
    FoldOne(a, limit, rule);
  }

  /**
   * The 86-unit line: two words of 42 and 43 code units pass the observation test
   * (42 + 43 <= 85) and share one line of 86 code units, while the test that counts the
   * space would have put them on separate lines.
   */
  lemma ObservationLineOf86(a: string, b: string)
    requires Utf16Length(a) == 42 && Utf16Length(b) == 43
    requires ' ' !in a && ' ' !in b && '\n' !in a && '\n' !in b
    ensures ObservationLines(a + " " + b) == [a + " " + b]
    ensures Utf16Length(ObservationLines(a + " " + b)[0]) == ObservationLimit + 1
    ensures Wrap([a, b], ObservationLimit, CountSeparator) == [a, b]
  {
    var t := a + " " + b;
    Utf16LengthAppend(a, " ");
    Utf16LengthAppend(a + " ", b);
    assert Utf16Length(" ") == 1 by { assert " "[..0] == []; }
    Utf16LengthBounds(t);
    NoNewlineBetween(a, b);
    SingleSegment(t);
    SplitTwoWords(a, b);
    WrapTwoWords(a, b, ObservationLimit, IgnoreSeparator);
    WrapTwoWords(a, b, ObservationLimit, CountSeparator);
  }

  /**
   * Lengths are counted in code units: after 78 units of text, an emoji outside the
   * Basic Multilingual Plane (two units) no longer fits the 80-unit description line
   * and goes onto a line of its own.
   */
  lemma SurrogatePairWraps(a: string)
    requires Utf16Length(a) == 78
    ensures Wrap([a, "\U{1F600}"], DescriptionLimit, CountSeparator) == [a, "\U{1F600}"]
  {
    assert a != [];
    assert Utf16Length("\U{1F600}") == 2 by { assert "\U{1F600}"[..0] == []; }
    WrapTwoWords(a, "\U{1F600}", DescriptionLimit, CountSeparator);
  }

  lemma NoNewlineBetween(a: string, b: string)
    requires '\n' !in a && '\n' !in b
    ensures '\n' !in a + " " + b
  {
    var t := a + " " + b;
    forall i | 0 <= i < |t| ensures t[i] != '\n' {
      if i < |a| { assert t[i] == a[i]; }
      else if i > |a| { assert t[i] == b[i - |a| - 1]; }
    }
  }

  /** A text of at most 340 characters without line breaks is a single segment. */
  lemma SingleSegment(t: string)
    requires '\n' !in t && |t| <= 340
    ensures ObservationLines(t) == SegmentLines(t)
  {
    assert Truncate(t, 340) == t;
    SplitNoSeparator(t, '\n');
    assert [t][..0] == [];
    assert SegmentsLines([t]) == SegmentLines(t);
  }

  lemma SplitTwoWords(a: string, b: string)
    requires ' ' !in a && ' ' !in b
    ensures Split(a + " " + b, ' ') == [a, b]
  {
    SplitNoSeparator(a, ' ');
    SplitAppend(a, ' ', b);
  }


}
