/** The response sanitiser `PersonaCharacter.clean_response`: a fixed
    pipeline that turns whatever the language model produced into one quoted
    line built only from the allow-list characters. */
module Sanitizer {

  import opened Text

  /** The interjection the pipeline tries to thin out. */
  const Laugh: string := "흐흐"

  /** Speaker and section labels the model sometimes echoes, in deletion order. */
  const NarrationLabel: string := "나레이션:"
  const RabbitLabel: string := "토끼:"
  const TurtleLabel: string := "거북이:"
  const LineLabel: string := "대사:"
  const SituationLabel: string := "상황:"

  /** `str.isdigit`, restricted to the ASCII digits. */
  predicate IsDigit(c: char)
  {
    '0' <= c <= '9'
  }

  /** Membership in `allowed_chars`: the 52 ASCII letters, the fourteen
      syllables 가 나 다 라 마 바 사 아 자 차 카 타 파 하 (not the whole
      Hangul block), the space and `.,!?~`. */
  predicate InAllowList(c: char)
  {
    || ('a' <= c <= 'z')
    || ('A' <= c <= 'Z')
    || c in {'가', '나', '다', '라', '마', '바', '사', '아', '자', '차', '카', '타', '파', '하'}
    || c in {' ', '.', ',', '!', '?', '~'}
  }

  /** A character `endswith((".", "!", "?"))` accepts. */
  predicate IsTerminal(c: char)
  {
    c == '.' || c == '!' || c == '?'
  }

  /** What stands between the quotes of a sanitised line: non-empty, only
      allow-list characters, no leading space, a terminal mark at the end. */
  predicate IsCleanText(t: string)
  {
    |t| > 0 && (forall i :: 0 <= i < |t| ==> InAllowList(t[i])) && t[0] != ' ' && IsTerminal(t[|t| - 1])
  }

  function Inner(r: string): string
    requires |r| >= 2
  {
    r[1..|r| - 1]
  }

  function Quote(t: string): string
  {
    "\"" + t + "\""
  }

  // ---------------------------------------------------------------------
  // The pipeline, one function per step

  function DropDigits(s: string): string
  {
    Keep(s, c => !IsDigit(c))
  }

  function DropQuotes(s: string): string
  {
    RemoveAll(RemoveAll(s, "'"), "\"")
  }

  function DropLabels(s: string): string
  {
    RemoveAll(RemoveAll(RemoveAll(RemoveAll(RemoveAll(s, NarrationLabel), RabbitLabel), TurtleLabel), LineLabel), SituationLabel)
  }

  function KeepAllowed(s: string): string
  {
    Keep(s, InAllowList)
  }

  /** The interjection step as written: the first `replace(..., 1)` swaps
      the first "흐흐" for itself, the second deletes every "흐흐". */
  function CollapseLaugh(s: string): string
  {
    if Contains(s, Laugh) then RemoveAll(ReplaceFirst(s, Laugh, Laugh), Laugh) else s
  }

  function Punctuate(s: string): string
  {
    if s != [] && IsTerminal(s[|s| - 1]) then s else s + "."
  }

  /** Every step before stripping deletes characters and nothing else. */
  lemma FilteringIsDeletion(raw: string)
    ensures IsSubseq(CollapseLaugh(KeepAllowed(DropLabels(DropQuotes(DropDigits(raw))))), raw)
  {
    var s1 := DropDigits(raw);
    var s2 := DropQuotes(s1);
    var s3 := DropLabels(s2);
    var s4 := KeepAllowed(s3);
    var s5 := CollapseLaugh(s4);
    SubseqTrans(s2, RemoveAll(s1, "'"), s1);
    var l1 := RemoveAll(s2, NarrationLabel);
    var l2 := RemoveAll(l1, RabbitLabel);
    var l3 := RemoveAll(l2, TurtleLabel);
    var l4 := RemoveAll(l3, LineLabel);
    SubseqTrans(l2, l1, s2);
    SubseqTrans(l3, l2, s2);
    SubseqTrans(l4, l3, s2);
    SubseqTrans(s3, l4, s2);
    if Contains(s4, Laugh) {
      ReplaceFirstSelf(s4, Laugh);
    } else {
      SubseqRefl(s4);
    }
    SubseqTrans(s3, s2, s1);
    SubseqTrans(s3, s1, raw);
    SubseqTrans(s4, s3, raw);
    SubseqTrans(s5, s4, raw);
  }

  /** On allow-list text the interjection step never fires: '흐' is not on
      the list. */
  lemma LaughStepIsDead(s: string)
    requires forall i :: 0 <= i < |s| ==> InAllowList(s[i])
    ensures CollapseLaugh(s) == s
  {
    assert !InAllowList('흐');
    assert '흐' !in s;
    MissingCharNotContained(s, Laugh, '흐');
  }

  /** Were the interjection step reachable, it would leave no "흐흐" at all,
      rather than one. */
  lemma LaughStepDeletesEvery(s: string)
    ensures !Contains(CollapseLaugh(s), Laugh)
  {
    if Contains(s, Laugh) {
      ReplaceFirstSelf(s, Laugh);
      assert Laugh == ['흐', '흐'];
      RemovePairLeavesNone(s, '흐');
    }
  }

  /** Steps 1 to 5 of `clean_response`, before stripping: what is left is
      allow-list text obtained from `raw` by deleting characters. */
  function Filtered(raw: string): (s: string)
    ensures forall i :: 0 <= i < |s| ==> InAllowList(s[i])
    ensures IsSubseq(s, raw)
  {
    var allowed := KeepAllowed(DropLabels(DropQuotes(DropDigits(raw))));
    LaughStepIsDead(allowed);
    FilteringIsDeletion(raw);
    CollapseLaugh(allowed)
  }

  /** Deleting characters from allow-list text leaves allow-list text. */
  lemma AllowedSubseq(t: string, s: string)
    requires IsSubseq(t, s)
    requires forall i :: 0 <= i < |s| ==> InAllowList(s[i])
    ensures forall i :: 0 <= i < |t| ==> InAllowList(t[i])
  {
    SubseqChars(t, s);
    forall i | 0 <= i < |t|
      ensures InAllowList(t[i])
    {
      assert t[i] in s;
    }
  }

  /** Stripped allow-list text becomes clean once it ends in a terminal mark. */
  lemma PunctuateClean(t: string)
    requires forall i :: 0 <= i < |t| ==> InAllowList(t[i])
    requires t == [] || !IsSpace(t[0])
    ensures IsCleanText(Punctuate(t))
  {
    var p := Punctuate(t);
    if p != t {
      assert forall i :: 0 <= i < |t| ==> p[i] == t[i];
    }
  }

  /** A quoted text: the quotes at both ends, the text between them. */
  lemma QuoteShape(t: string)
    ensures var r := Quote(t);
      && |r| == |t| + 2 && r[0] == '"' && r[|r| - 1] == '"' && Inner(r) == t
      && (|t| > 0 ==> r[1..|r| - 2] == t[..|t| - 1] && r[|r| - 2] == t[|t| - 1])
  {
  }

  /** `clean_response`: the result is a quoted line of at least three
      characters whose inner text is clean, and that inner text is what is
      left of `raw` after deleting characters, possibly followed by a '.'. */
  function CleanResponse(raw: string): (r: string)
    ensures |r| >= 3 && r[0] == '"' && r[|r| - 1] == '"'
    ensures IsCleanText(Inner(r))
    ensures IsSubseq(Inner(r), raw) || (r[|r| - 2] == '.' && IsSubseq(r[1..|r| - 2], raw))
  {
    var s := Filtered(raw);
    var t := Strip(s);
    SubseqTrans(t, s, raw);
    AllowedSubseq(t, s);
    PunctuateClean(t);
    var inner := Punctuate(t);
    QuoteShape(inner);
    assert inner == t || (inner == t + "." && inner[..|inner| - 1] == t);
    Quote(inner)
  }

  /** Allow-list text has no digit, quote or label to delete. */
  lemma AllowedTextKeepsQuotes(t: string)
    requires forall i :: 0 <= i < |t| ==> InAllowList(t[i])
    ensures DropQuotes(t) == t
  {
    assert forall c :: c in t ==> InAllowList(c);
    RemoveAllAbsent(t, "'", '\'');
    RemoveAllAbsent(t, "\"", '"');
  }

  lemma AllowedTextKeepsLabels(t: string)
    requires forall i :: 0 <= i < |t| ==> InAllowList(t[i])
    ensures DropLabels(t) == t
  {
    assert ':' !in t;
    RemoveAllAbsent(t, NarrationLabel, ':');
    RemoveAllAbsent(t, RabbitLabel, ':');
    RemoveAllAbsent(t, TurtleLabel, ':');
    RemoveAllAbsent(t, LineLabel, ':');
    RemoveAllAbsent(t, SituationLabel, ':');
  }

  /** Allow-list text goes through steps 1 to 5 unchanged. */
  lemma AllowedTextIsUnfiltered(t: string)
    requires forall i :: 0 <= i < |t| ==> InAllowList(t[i])
    ensures Filtered(t) == t
  {
    assert DropDigits(t) == t;
    AllowedTextKeepsQuotes(t);
    AllowedTextKeepsLabels(t);
    assert KeepAllowed(t) == t;
    LaughStepIsDead(t);
  }

  /** The labels the pipeline deletes. */
  predicate IsLabel(tag: string)
  {
    tag == NarrationLabel || tag == RabbitLabel || tag == TurtleLabel || tag == LineLabel || tag == SituationLabel
  }

  /** The label step deletes a label `tag` that opens the text. `tag` holds
      none of the first characters of the labels deleted before it, so those
      steps keep it in front of the rest. */
  lemma LabelStepDropsLeading(tag: string, w: string)
    requires IsLabel(tag)
    ensures DropLabels(tag + w) == DropLabels(w)
  {
    var w1 := RemoveAll(w, NarrationLabel);
    var w2 := RemoveAll(w1, RabbitLabel);
    var w3 := RemoveAll(w2, TurtleLabel);
    var w4 := RemoveAll(w3, LineLabel);
    if tag == NarrationLabel {
      RemoveAllLeading(tag, w);
    } else {
      assert NarrationLabel[0] !in tag;
      RemoveAllSkip(tag, w, NarrationLabel);
      if tag == RabbitLabel {
        RemoveAllLeading(tag, w1);
      } else {
        assert RabbitLabel[0] !in tag;
        RemoveAllSkip(tag, w1, RabbitLabel);
        if tag == TurtleLabel {
          RemoveAllLeading(tag, w2);
        } else {
          assert TurtleLabel[0] !in tag;
          RemoveAllSkip(tag, w2, TurtleLabel);
          if tag == LineLabel {
            RemoveAllLeading(tag, w3);
          } else {
            assert LineLabel[0] !in tag;
            RemoveAllSkip(tag, w3, LineLabel);
            RemoveAllLeading(tag, w4);
          }
        }
      }
    }
  }

  /** Text with no digit and no quote stays in front of the rest through
      the first two steps. */
  lemma PlainPrefixSurvives(a: string, t: string)
    requires forall i :: 0 <= i < |a| ==> !IsDigit(a[i])
    requires '\'' !in a && '"' !in a
    ensures DropQuotes(DropDigits(a + t)) == a + DropQuotes(DropDigits(t))
  {
    KeepAppend(a, t, c => !IsDigit(c));
    assert DropDigits(a) == a;
    var t1 := DropDigits(t);
    assert "'"[0] == '\'' && "\""[0] == '"';
    RemoveAllSkip(a, t1, "'");
    RemoveAllSkip(a, RemoveAll(t1, "'"), "\"");
  }

  /** A label has no digit and no quote. */
  lemma LabelIsPlain(tag: string)
    requires IsLabel(tag)
    ensures forall i :: 0 <= i < |tag| ==> !IsDigit(tag[i])
    ensures '\'' !in tag && '"' !in tag
  {
  }

  /** A label that opens the reply leaves no trace: steps 1 to 5 give what
      they give for the rest of the reply. */
  lemma LeadingLabelDropped(tag: string, t: string)
    requires IsLabel(tag)
    ensures Filtered(tag + t) == Filtered(t)
  {
    LabelIsPlain(tag);
    PlainPrefixSurvives(tag, t);
    LabelStepDropsLeading(tag, DropQuotes(DropDigits(t)));
  }

  /** A label after a syllable that opens it is still deleted, and the
      syllable stays: the label step turns "나나레이션:가" into "나가". */
  lemma LabelStepAfterOpeningSyllable()
    ensures DropLabels("나" + NarrationLabel + "가") == "나가"
  {
    var w := "나" + NarrationLabel + "가";
    assert w[0..][..|NarrationLabel|][1] == '나' != NarrationLabel[1];
    RemoveAllFirst("나", "가", NarrationLabel);
    RemoveAllNone("가", NarrationLabel);
    var w1 := RemoveAll(w, NarrationLabel);
    assert w1 == "나가";
    MissingCharNotContained(w1, RabbitLabel, ':');
    RemoveAllNone(w1, RabbitLabel);
    MissingCharNotContained(w1, TurtleLabel, ':');
    RemoveAllNone(w1, TurtleLabel);
    MissingCharNotContained(w1, LineLabel, ':');
    RemoveAllNone(w1, LineLabel);
    MissingCharNotContained(w1, SituationLabel, ':');
    RemoveAllNone(w1, SituationLabel);
  }

  /** The same for the whole sanitiser: a reply that opens with a label is
      cleaned as if the label were not there. */
  lemma LeadingLabelIgnored(tag: string, t: string)
    requires IsLabel(tag)
    ensures CleanResponse(tag + t) == CleanResponse(t)
  {
    LeadingLabelDropped(tag, t);
  }

  /** Without a ':' no label can match, and digits, quotes and '흐' are off
      the allow-list anyway: steps 1 to 5 keep exactly the allow-list
      characters of the raw text, every occurrence of each. */
  lemma LabelFreeFiltering(raw: string)
    requires ':' !in raw
    ensures Filtered(raw) == KeepAllowed(raw)
  {
    var s1 := DropDigits(raw);
    var q := RemoveAll(s1, "'");
    var s2 := DropQuotes(s1);
    SubseqChars(s1, raw);
    SubseqChars(q, s1);
    SubseqChars(s2, q);
    assert ':' !in s2;
    RemoveAllAbsent(s2, NarrationLabel, ':');
    RemoveAllAbsent(s2, RabbitLabel, ':');
    RemoveAllAbsent(s2, TurtleLabel, ':');
    RemoveAllAbsent(s2, LineLabel, ':');
    RemoveAllAbsent(s2, SituationLabel, ':');
    assert DropLabels(s2) == s2;
    KeepAfterRemoveChar(q, '"', InAllowList);
    KeepAfterRemoveChar(s1, '\'', InAllowList);
    KeepKeep(raw, c => !IsDigit(c), InAllowList);
    LaughStepIsDead(KeepAllowed(s2));
  }

  /** On label-free input the whole of `clean_response` is: keep the
      allow-list characters, strip, punctuate, quote. */
  lemma LabelFreeCleanResponse(raw: string)
    requires ':' !in raw
    ensures CleanResponse(raw) == Quote(Punctuate(Strip(KeepAllowed(raw))))
  {
    LabelFreeFiltering(raw);
  }

  /** Text that is already clean passes through the pipeline unchanged and
      is only wrapped in quotes. */
  lemma CleanTextIsFixed(t: string)
    requires IsCleanText(t)
    ensures CleanResponse(t) == Quote(t)
  {
    AllowedTextIsUnfiltered(t);
    assert !IsSpace(t[0]) && !IsSpace(t[|t| - 1]);
    assert Strip(t) == t;
    assert Punctuate(t) == t;
  }

  /** Sanitising is stable: cleaning the inner text of a cleaned line gives
      back the same line. */
  lemma CleanResponseStable(raw: string)
    ensures CleanResponse(Inner(CleanResponse(raw))) == CleanResponse(raw)
  {
    var r := CleanResponse(raw);
    CleanTextIsFixed(Inner(r));
    assert Quote(Inner(r)) == r;
  }

  /** A response with no allow-list character at all degenerates to the
      placeholder line `"."`. */
  lemma NothingAllowedGivesPlaceholder(raw: string)
    requires forall c :: c in raw ==> !InAllowList(c)
    ensures CleanResponse(raw) == "\".\""
  {
    var allowed := KeepAllowed(DropLabels(DropQuotes(DropDigits(raw))));
    LaughStepIsDead(allowed);
    FilteringIsDeletion(raw);
    SubseqChars(allowed, raw);
    assert allowed == [];
    assert Strip(allowed) == [];
  }

}
