/** The tag bookkeeping of the scrollable label (`RecycleLabel` in
    src/widgets/scrolllabel.py). Kivy renders a long marked-up text line by
    line; a style opened on one line and closed on a later one would be
    lost, so the label counts open style tags per style and glues a line
    onto the previous one while some style is still open. Rendering itself
    is outside the model: the label receives the rendered lines. */
module ScrollLabel {
  import opened Wrappers
  import opened Strings

  /** The styles the label counts: the keys of `_style_stack`. */
  datatype StyleKey =
    | Bold | Italic | Underline | Strikethrough | FontSize | Color | FontName | FontFamily
    | FontContext | FontFeatures | TextLanguage | Script | Ref | Unknown

  /** `_style_stack`: a counter per style that was ever pushed. */
  type Stack = map<StyleKey, int>

  /** The counter of a style, 0 when it was never pushed. */
  function Count(s: Stack, k: StyleKey): int
  {
    if k in s then s[k] else 0
  }

  predicate NonNegative(s: Stack)
  {
    forall k :: k in s ==> s[k] >= 0
  }

  /** `_push_style`: the counter is created at 0 and incremented. */
  function Push(s: Stack, k: StyleKey): Stack
  {
    s[k := Count(s, k) + 1]
  }

  /** `_pop_style`: a style that is absent or at 0 is left alone, any other
      is decremented. */
  function Pop(s: Stack, k: StyleKey): Stack
  {
    if k !in s || s[k] == 0 then s else s[k := s[k] - 1]
  }

  /** A push adds one to its own counter and to nothing else. */
  lemma PushCounts(s: Stack, k: StyleKey)
    ensures k in Push(s, k)
    ensures forall j :: Count(Push(s, k), j) == Count(s, j) + (if j == k then 1 else 0)
    ensures NonNegative(s) ==> NonNegative(Push(s, k))
  {
  }

  /** A pop takes one from a positive counter, leaves a zero counter at
      zero and touches no other style; so counters never become negative. */
  lemma PopCounts(s: Stack, k: StyleKey)
    requires NonNegative(s)
    ensures NonNegative(Pop(s, k))
    ensures Count(Pop(s, k), k) == if Count(s, k) > 0 then Count(s, k) - 1 else 0
    ensures forall j :: j != k ==> Count(Pop(s, k), j) == Count(s, j)
  {
  }

  /** Closing a style right after opening it restores every counter. */
  lemma PopAfterPush(s: Stack, k: StyleKey)
    requires NonNegative(s)
    ensures forall j :: Count(Pop(Push(s, k), k), j) == Count(s, j)
  {
  }

  /** `sum(self._style_stack.values())`: styles that were never pushed
      add nothing. */
  function Total(s: Stack): int
  {
    Count(s, Bold) + Count(s, Italic) + Count(s, Underline) + Count(s, Strikethrough)
    + Count(s, FontSize) + Count(s, Color) + Count(s, FontName) + Count(s, FontFamily)
    + Count(s, FontContext) + Count(s, FontFeatures) + Count(s, TextLanguage) + Count(s, Script)
    + Count(s, Ref) + Count(s, Unknown)
  }

  /** `is_style_stack_empty`: the counters sum to zero. */
  predicate StackEmpty(s: Stack)
  {
    Total(s) == 0
  }

  /** With non-negative counters, the stack is empty exactly when no style
      is open: every opening tag has met its closing tag. */
  lemma StackEmptyIffNoneOpen(s: Stack)
    requires NonNegative(s)
    ensures StackEmpty(s) <==> forall k :: Count(s, k) == 0
  {
    if StackEmpty(s) {
      assert Count(s, Bold) >= 0 && Count(s, Italic) >= 0 && Count(s, Underline) >= 0
        && Count(s, Strikethrough) >= 0 && Count(s, FontSize) >= 0 && Count(s, Color) >= 0
        && Count(s, FontName) >= 0 && Count(s, FontFamily) >= 0 && Count(s, FontContext) >= 0
        && Count(s, FontFeatures) >= 0 && Count(s, TextLanguage) >= 0 && Count(s, Script) >= 0
        && Count(s, Ref) >= 0 && Count(s, Unknown) >= 0;
      forall k
        ensures Count(s, k) == 0
      {
        match k
        case Bold => case Italic => case Underline => case Strikethrough => case FontSize =>
        case Color => case FontName => case FontFamily => case FontContext => case FontFeatures =>
        case TextLanguage => case Script => case Ref => case Unknown =>
      }
    }
  }

  /** The index of the first `]` at or after `i` that is not preceded by a
      line break: the end of the shortest match of `.*?\]` from `i`. */
  function CloseIndex(t: string, i: nat): (r: Option<nat>)
    ensures r.Some? ==> i <= r.value < |t| && t[r.value] == ']'
    decreases |t| - i
  {
    if i >= |t| then None
    else if t[i] == ']' then Some(i)
    else if t[i] == '\n' then None
    else CloseIndex(t, i + 1)
  }

  /** `[lit]`, or nothing for the empty string. */
  function Flush(lit: string): seq<string>
  {
    if lit == "" then [] else [lit]
  }

  /** `re.split('(\[.*?\])', text)` without its empty strings, with the
      text read so far since the last tag in `lit`: a tag starts at the
      first `[` from which a `]` follows on the same line, and ends at that
      `]`. */
  function Lex(t: string, lit: string): seq<string>
    decreases |t|
  {
    if |t| == 0 then Flush(lit)
    else if t[0] == '[' && CloseIndex(t, 1).Some? then
      var c := CloseIndex(t, 1).value;
      Flush(lit) + [t[..c + 1]] + Lex(t[c + 1..], "")
    else Lex(t[1..], lit + [t[0]])
  }

  /** `get_markup_elements` */
  function MarkupElements(text: string): seq<string>
  {
    Lex(text, "")
  }

  /** The text read so far, a tag and further elements put back together. */
  lemma FlushTagConcat(lit: string, tag: string, es: seq<string>)
    ensures Concat(Flush(lit) + [tag] + es) == lit + tag + Concat(es)
  {
    ConcatAppend(Flush(lit) + [tag], es);
    ConcatAppend(Flush(lit), [tag]);
    assert Concat([tag]) == tag;
    assert Concat([lit]) == lit;
  }

  /** The elements put back together are the text read so far and the
      rest. */
  lemma {:induction false} LexConcat(t: string, lit: string)
    ensures Concat(Lex(t, lit)) == lit + t
    decreases |t|
  {
    if |t| == 0 {
      assert lit + t == lit;
      assert Concat([lit]) == lit;
    } else if t[0] == '[' && CloseIndex(t, 1).Some? {
      var c := CloseIndex(t, 1).value;
      var tag, rest := t[..c + 1], t[c + 1..];
      LexConcat(rest, "");
      FlushTagConcat(lit, tag, Lex(rest, ""));
      assert tag + rest == t;
    } else {
      LexConcat(t[1..], lit + [t[0]]);
      assert lit + [t[0]] + t[1..] == lit + t;
    }
  }

  /** No element is empty. */
  lemma {:induction false} LexNonEmpty(t: string, lit: string)
    ensures forall e :: e in Lex(t, lit) ==> e != ""
    decreases |t|
  {
    if |t| > 0 {
      if t[0] == '[' && CloseIndex(t, 1).Some? {
        LexNonEmpty(t[CloseIndex(t, 1).value + 1..], "");
      } else {
        LexNonEmpty(t[1..], lit + [t[0]]);
      }
    }
  }

  /** `get_markup_elements` splits the text into non-empty pieces whose
      concatenation is the text. */
  lemma MarkupElementsSpec(text: string)
    ensures Concat(MarkupElements(text)) == text
    ensures forall e :: e in MarkupElements(text) ==> e != ""
  {
    LexConcat(text, "");
    LexNonEmpty(text, "");
  }

  /** One call of `spush` or `spop`. */
  datatype StyleOp = Open(key: StyleKey) | Close(key: StyleKey)

  /** The calls `_style_push_pop` makes for one markup element. Every tag
      its `if`/`elif` chain names begins with `[`, so the chain is tried
      only on such elements; the two tests that end the chain, `'[/' in
      item` and `'[' in item`, apply to every element. */
  function Effects(item: string): seq<StyleOp>
  {
    if |item| > 0 && item[0] == '[' then TagEffects(item)
    else if Contains(item, "[/") then [Close(Unknown)]
    else if '[' in item then [Open(Unknown)]
    else []
  }

  /** The chain of `_style_push_pop`, in its order, for an element that
      begins with `[`. */
  function TagEffects(item: string): seq<StyleOp>
  {
    if item == "[b]" then [Open(Bold)]
    else if item == "[/b]" then [Close(Bold)]
    else if item == "[i]" then [Open(Italic)]
    else if item == "[/i]" then [Close(Italic)]
    else if item == "[u]" then [Open(Underline)]
    else if item == "[/u]" then [Close(Underline)]
    else if item == "[s]" then [Open(Strikethrough)]
    else if item == "[/s]" then [Close(Strikethrough)]
    else if StartsWith(item, "[size=") then [Open(FontSize)]
    else if item == "[/size]" then [Close(FontSize)]
    else if StartsWith(item, "[color=") then [Open(Color)]
    else if item == "[/color]" then [Close(Color)]
    else if StartsWith(item, "[font=") then [Open(FontName)]
    else if item == "[/font]" then [Close(FontName)]
    else if StartsWith(item, "[font_family=") then [Open(FontFamily)]
    else if item == "[/font_family]" then [Close(FontFamily)]
    else if StartsWith(item, "[font_context=") then [Open(FontContext)]
    else if item == "[/font_context]" then [Close(FontContext)]
    else if StartsWith(item, "[font_features=") then [Open(FontFeatures)]
    else if item == "[/font_features]" then [Close(FontFeatures)]
    else if StartsWith(item, "[text_language=") then [Open(TextLanguage)]
    else if item == "[/text_language]" then [Close(TextLanguage)]
    else if StartsWith(item, "[sub]") then [Open(FontSize), Open(Script)]
    else if item == "[/sub]" then [Close(FontSize), Close(Script)]
    else if StartsWith(item, "[sup]") then [Open(FontSize), Open(Script)]
    else if item == "[/sup]" then [Close(FontSize), Close(Script)]
    else if StartsWith(item, "[ref=") then [Open(Ref)]
    else if item == "[/ref]" then [Close(Ref)]
    else if Contains(item, "[/") then [Close(Unknown)]
    else [Open(Unknown)]
  }

  /** Each element either only opens or only closes, at most two
      styles. */
  lemma EffectsUniform(item: string)
    ensures |Effects(item)| <= 2
    ensures (forall i :: 0 <= i < |Effects(item)| ==> Effects(item)[i].Open?)
            || (forall i :: 0 <= i < |Effects(item)| ==> Effects(item)[i].Close?)
  {
  }

  /** Plain text is ignored. */
  lemma PlainTextIgnored(item: string)
    requires '[' !in item
    ensures Effects(item) == []
  {
    ContainsAt(item, "[/");
    forall k: nat
      ensures !OccursAt(item, "[/", k)
    {
      if k + 2 <= |item| {
        assert item[k..k + 2][0] == item[k];
      }
    }
  }

  /** Every element with a `[` is counted somewhere, so with the previous
      lemma an element changes the stack exactly when it contains a `[`. */
  lemma BracketCounted(item: string)
    requires '[' in item
    ensures |Effects(item)| > 0
  {
  }

  /** A string does not start with a prefix it disagrees with at `i`. */
  lemma Differs(s: string, p: string, i: nat)
    requires i < |p| && (i >= |s| || s[i] != p[i])
    ensures !StartsWith(s, p)
  {
  }

  /** Subscript and superscript count as a font size and a script
      style. */
  lemma ScriptOpeners()
    ensures Effects("[sub]") == [Open(FontSize), Open(Script)]
    ensures Effects("[sup]") == [Open(FontSize), Open(Script)]
  {
  }

  /** Their closing tags close both. */
  lemma ScriptClosers()
    ensures Effects("[/sub]") == [Close(FontSize), Close(Script)]
    ensures Effects("[/sup]") == [Close(FontSize), Close(Script)]
  {
    Differs("[/sub]", "[size=", 1);
    Differs("[/sub]", "[font=", 1);
    Differs("[/sup]", "[size=", 1);
    Differs("[/sup]", "[font=", 1);
  }

  /** A tag the label does not know opens or closes the `unknown` style. */
  lemma UnknownTags()
    ensures Effects("[x]") == [Open(Unknown)]
    ensures Effects("[/x]") == [Close(Unknown)]
  {
    assert StartsWith("[/x]", "[/");
  }

  /** The stack after a sequence of calls. */
  function ApplyOps(s: Stack, ops: seq<StyleOp>): Stack
    decreases |ops|
  {
    if |ops| == 0 then s
    else
      var s' := ApplyOps(s, ops[..|ops| - 1]);
      match ops[|ops| - 1]
      case Open(k) => Push(s', k)
      case Close(k) => Pop(s', k)
  }

  /** The stack after the calls of a sequence of markup elements. */
  function ApplyItems(s: Stack, items: seq<string>): Stack
    decreases |items|
  {
    if |items| == 0 then s else ApplyOps(ApplyItems(s, items[..|items| - 1]), Effects(items[|items| - 1]))
  }

  /** `_style_push_pop` on a whole line. */
  function CountTags(s: Stack, line: string): Stack
  {
    ApplyItems(s, MarkupElements(line))
  }

  lemma {:induction false} ApplyOpsNonNegative(s: Stack, ops: seq<StyleOp>)
    requires NonNegative(s)
    ensures NonNegative(ApplyOps(s, ops))
    decreases |ops|
  {
    if |ops| > 0 {
      var s' := ApplyOps(s, ops[..|ops| - 1]);
      ApplyOpsNonNegative(s, ops[..|ops| - 1]);
      match ops[|ops| - 1]
      case Open(k) => PushCounts(s', k);
      case Close(k) => PopCounts(s', k);
    }
  }

  lemma {:induction false} ApplyItemsNonNegative(s: Stack, items: seq<string>)
    requires NonNegative(s)
    ensures NonNegative(ApplyItems(s, items))
    decreases |items|
  {
    if |items| > 0 {
      ApplyItemsNonNegative(s, items[..|items| - 1]);
      ApplyOpsNonNegative(ApplyItems(s, items[..|items| - 1]), Effects(items[|items| - 1]));
    }
  }

  /** Counting the tags of a line never makes a counter negative. */
  lemma CountTagsNonNegative(s: Stack, line: string)
    requires NonNegative(s)
    ensures NonNegative(CountTags(s, line))
  {
    ApplyItemsNonNegative(s, MarkupElements(line));
  }

  /** A line without any `[` leaves the stack as it is. */
  lemma {:induction false} PlainItemsIgnored(s: Stack, items: seq<string>)
    requires forall i :: 0 <= i < |items| ==> '[' !in items[i]
    ensures ApplyItems(s, items) == s
    decreases |items|
  {
    if |items| > 0 {
      PlainItemsIgnored(s, items[..|items| - 1]);
      PlainTextIgnored(items[|items| - 1]);
    }
  }

  /** How the tags of one line change the counters; the label's own
      counter is `CountTags`. The gluing of lines below holds for any. */
  type Counter = (Stack, string) -> Stack

  /** `on_lines`: Kivy calls it after every change of `lines`, and it
      counts the tags of the last line; an empty list raises IndexError,
      which is ignored. */
  function AfterLinesChange(s: Stack, lines: seq<string>, count: Counter): Stack
  {
    if |lines| == 0 then s else count(s, lines[|lines| - 1])
  }

  lemma AfterLinesChangeLast(s: Stack, lines: seq<string>, count: Counter, s': Stack)
    requires |lines| > 0 && s' == count(s, lines[|lines| - 1])
    ensures AfterLinesChange(s, lines, count) == s'
  {
  }

  /** The label's part of a state: the counters and the lines. */
  datatype LabelState = LabelState(stack: Stack, lines: seq<string>)

  /** The lines after one line is added: glued onto the last line, when
      there is one and `glue` holds, and appended otherwise. */
  function GlueLines(lines: seq<string>, line: string, glue: bool): seq<string>
  {
    if glue && |lines| > 0 then lines[..|lines| - 1] + [lines[|lines| - 1] + line] else lines + [line]
  }

  /** Adding a line loses no text and makes at most one more line. */
  lemma GlueLinesSpec(lines: seq<string>, line: string, glue: bool)
    ensures Concat(GlueLines(lines, line, glue)) == Concat(lines) + line
    ensures |lines| <= |GlueLines(lines, line, glue)| <= |lines| + 1
    ensures !glue || |lines| == 0 ==> GlueLines(lines, line, glue) == lines + [line]
  {
    var n := |lines|;
    if glue && n > 0 {
      var init, last := lines[..n - 1], lines[n - 1];
      assert lines == init + [last];
      ConcatAppend(init, [last]);
      ConcatAppend(init, [last + line]);
      assert Concat([last]) == last;
      assert Concat([last + line]) == last + line;
    } else {
      ConcatAppend(lines, [line]);
      assert Concat([line]) == line;
    }
  }

  /** One iteration of `_concat_style_tags`, with the `on_lines` it
      triggers: while a style is open, the counters are cleared and the
      line is glued onto the last one (or appended when there is none). */
  function ConcatStep(st: LabelState, line: string, count: Counter): LabelState
  {
    var glue := !StackEmpty(st.stack);
    var lines' := GlueLines(st.lines, line, glue);
    LabelState(AfterLinesChange(if glue then map[] else st.stack, lines', count), lines')
  }

  /** `_concat_style_tags` over all rendered lines. */
  function ConcatAll(st: LabelState, input: seq<string>, count: Counter): LabelState
    decreases |input|
  {
    if |input| == 0 then st else ConcatStep(ConcatAll(st, input[..|input| - 1], count), input[|input| - 1], count)
  }

  /** Gluing loses no text and makes at most one line per input line;
      while no style is open the line is appended as it is. */
  lemma ConcatStepLines(st: LabelState, line: string, count: Counter)
    ensures Concat(ConcatStep(st, line, count).lines) == Concat(st.lines) + line
    ensures |st.lines| <= |ConcatStep(st, line, count).lines| <= |st.lines| + 1
    ensures StackEmpty(st.stack) || |st.lines| == 0 ==> ConcatStep(st, line, count).lines == st.lines + [line]
  {
    GlueLinesSpec(st.lines, line, !StackEmpty(st.stack));
  }

  /** `_concat_style_tags` keeps the text of its input, in order. */
  lemma {:induction false} ConcatAllText(st: LabelState, input: seq<string>, count: Counter)
    ensures Concat(ConcatAll(st, input, count).lines) == Concat(st.lines) + Concat(input)
    decreases |input|
  {
    if |input| == 0 {
      assert Concat(st.lines) + "" == Concat(st.lines);
    } else {
      var init := input[..|input| - 1];
      ConcatAllText(st, init, count);
      ConcatStepLines(ConcatAll(st, init, count), input[|input| - 1], count);
      ConcatLast(input);
    }
  }

  /** `_concat_style_tags` makes at most as many lines as it is given. */
  lemma {:induction false} ConcatAllCount(st: LabelState, input: seq<string>, count: Counter)
    ensures |st.lines| <= |ConcatAll(st, input, count).lines| <= |st.lines| + |input|
    decreases |input|
  {
    if |input| > 0 {
      var init := input[..|input| - 1];
      ConcatAllCount(st, init, count);
      ConcatStepLines(ConcatAll(st, init, count), input[|input| - 1], count);
    }
  }

  /** A rendered line of Kivy's core label: its words. */
  datatype CachedLine = CachedLine(words: seq<string>)

  /** `get_lines`: the text of each rendered line is its first word, or
      empty when it has none. */
  function GetLines(cached: seq<CachedLine>): (r: seq<string>)
    ensures |r| == |cached|
    ensures forall i :: 0 <= i < |cached| ==>
              r[i] == if |cached[i].words| > 0 then cached[i].words[0] else ""
    decreases |cached|
  {
    if |cached| == 0 then []
    else [if |cached[0].words| > 0 then cached[0].words[0] else ""] + GetLines(cached[1..])
  }

  class RecycleLabel {
    var styleStack: Stack
    var lines: seq<string>

    predicate Valid()
      reads this
    {
      NonNegative(styleStack)
    }

    constructor ()
      ensures Valid() && styleStack == map[] && lines == []
    {
      styleStack := map[];
      lines := [];
    }

    /** `_push_style` */
    method PushStyle(k: StyleKey)
      modifies this`styleStack
      ensures styleStack == Push(old(styleStack), k)
    {
      if k !in styleStack {
        styleStack := styleStack[k := 0];
      }
      styleStack := styleStack[k := styleStack[k] + 1];
    }

    /** `_pop_style` */
    method PopStyle(k: StyleKey)
      modifies this`styleStack
      ensures styleStack == Pop(old(styleStack), k)
    {
      if k !in styleStack || styleStack[k] == 0 {
        return;
      }
      styleStack := styleStack[k := styleStack[k] - 1];
    }

    /** `is_style_stack_empty`: every opening tag so far has met its
        closing tag. */
    function IsStyleStackEmpty(): (r: bool)
      reads this
      requires Valid()
      ensures r <==> forall k :: Count(styleStack, k) == 0
    {
      StackEmptyIffNoneOpen(styleStack);
      StackEmpty(styleStack)
    }

    /** `_style_push_pop`: each markup element of the line makes its calls
        of `spush` and `spop`. */
    method StylePushPop(line: string)
      requires Valid()
      modifies this`styleStack
      ensures Valid()
      ensures styleStack == CountTags(old(styleStack), line)
    {
      var markup := MarkupElements(line);
      ghost var s0 := styleStack;
      for i := 0 to |markup|
        invariant styleStack == ApplyItems(s0, markup[..i])
      {
        assert markup[..i + 1][..i] == markup[..i];
        var ops := Effects(markup[i]);
        ghost var before := styleStack;
        for j := 0 to |ops|
          invariant styleStack == ApplyOps(before, ops[..j])
        {
          assert ops[..j + 1][..j] == ops[..j];
          match ops[j]
          case Open(k) => PushStyle(k);
          case Close(k) => PopStyle(k);
        }
        assert ops[..|ops|] == ops;
      }
      assert markup[..|markup|] == markup;
      CountTagsNonNegative(s0, line);
    }

    /** `on_lines`, run by Kivy after every change of `lines`. */
    method OnLines()
      requires Valid()
      modifies this`styleStack
      ensures Valid()
      ensures |lines| == 0 ==> styleStack == old(styleStack)
      ensures |lines| > 0 ==> styleStack == CountTags(old(styleStack), lines[|lines| - 1])
    {
      if |lines| > 0 {
        StylePushPop(lines[|lines| - 1]);
      }
    }

    /** `_concat_style_tags`, each change of `lines` followed by
        `on_lines`. */
    method ConcatStyleTags(input: seq<string>)
      requires Valid()
      modifies this`styleStack, this`lines
      ensures Valid()
      ensures LabelState(styleStack, lines) == ConcatAll(LabelState(old(styleStack), old(lines)), input, CountTags)
    {
      ghost var st0 := LabelState(styleStack, lines);
      for i := 0 to |input|
        invariant Valid()
        invariant LabelState(styleStack, lines) == ConcatAll(st0, input[..i], CountTags)
      {
        assert input[..i + 1][..i] == input[..i];
        var line := input[i];
        if !IsStyleStackEmpty() {
          styleStack := map[];
          if |lines| > 0 {
            lines := lines[..|lines| - 1] + [lines[|lines| - 1] + line];
          } else {
            lines := lines + [line];
          }
        } else {
          lines := lines + [line];
        }
        ghost var cleared := styleStack;
        OnLines();
        AfterLinesChangeLast(cleared, lines, CountTags, styleStack);
      }
      assert input[..|input|] == input;
    }

    /** The tail of `refresh_label` that rebuilds `lines` from the rendered
        lines; the counters are not reset there. */
    method RefreshLines(cached: seq<CachedLine>)
      requires Valid()
      modifies this`styleStack, this`lines
      ensures Valid()
      ensures LabelState(styleStack, lines) == ConcatAll(LabelState(old(styleStack), []), GetLines(cached), CountTags)
      ensures Concat(lines) == Concat(GetLines(cached))
      ensures |lines| <= |cached|
    {
      var rendered := GetLines(cached);
      lines := [];
      OnLines();
      ConcatStyleTags(rendered);
      ConcatAllText(LabelState(old(styleStack), []), rendered, CountTags);
      ConcatAllCount(LabelState(old(styleStack), []), rendered, CountTags);
    }
  }
}
