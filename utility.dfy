/** Helpers of src/utility.py: the device identifier, the permission
    request, the window orientation, and the two steps of the markdown
    converter that are not regular expressions: the overlap test against
    excepted portions and the splice that turns a marker pair into a
    markup tag. Regular-expression matching itself is a parameter. */
module Utility {
  import opened Wrappers
  import opened Strings

  /** The platforms the helpers tell apart. */
  datatype Platform = Android | Windows | OtherDesktop

  /** `create_device_identifier`: every fourth character of the hex digest
      of the hardware id. The digest is computed outside the model. */
  function DeviceIdentifier(hexDigest: string): string
  {
    EveryFourth(hexDigest)
  }

  /** An md5 digest has 32 hex characters, so the identifier has 8, the
      characters at positions 0, 4, ..., 28. */
  lemma DeviceIdentifierShape(hexDigest: string)
    requires |hexDigest| == 32
    ensures |DeviceIdentifier(hexDigest)| == 8
    ensures forall i :: 0 <= i < 8 ==> DeviceIdentifier(hexDigest)[i] == hexDigest[4 * i]
  {
    EveryFourthAt(hexDigest, 0);
    forall i | 0 <= i < 8
      ensures DeviceIdentifier(hexDigest)[i] == hexDigest[4 * i]
    {
      EveryFourthAt(hexDigest, i);
    }
  }

  /** What `ask_permission` returns, and whether it asked the system. */
  datatype PermissionAnswer = PermissionAnswer(result: bool, requested: bool)

  /** `ask_permission`: on Android the immediate check is returned and a
      request is made only when the permission is missing; every other
      platform is assumed to grant it. */
  function AskPermission(platform: Platform, granted: bool): PermissionAnswer
  {
    if platform == Android then PermissionAnswer(granted, !granted)
    else PermissionAnswer(true, false)
  }

  lemma AskPermissionCases(platform: Platform, granted: bool)
    ensures platform != Android ==> AskPermission(platform, granted) == PermissionAnswer(true, false)
    ensures platform == Android ==> AskPermission(platform, granted).result == granted
    ensures AskPermission(platform, granted).requested <==> platform == Android && !granted
    ensures AskPermission(platform, granted).requested ==> !AskPermission(platform, granted).result
  {
  }

  /** `is_window_landscape`: on Android the configured orientation, where
      1 is portrait and 2 landscape (any other value gives None); elsewhere
      the screen size decides. */
  function IsWindowLandscape(platform: Platform, orientation: int, width: int, height: int): Option<bool>
  {
    if platform == Android then
      if orientation == 1 then Some(false) else if orientation == 2 then Some(true) else None
    else Some(width > height)
  }

  lemma IsWindowLandscapeCases(platform: Platform, orientation: int, width: int, height: int)
    ensures platform != Android ==> IsWindowLandscape(platform, orientation, width, height) == Some(width > height)
    ensures platform == Android ==>
              (IsWindowLandscape(platform, orientation, width, height).Some? <==> orientation == 1 || orientation == 2)
    ensures platform == Android && IsWindowLandscape(platform, orientation, width, height).Some? ==>
              (IsWindowLandscape(platform, orientation, width, height).value <==> orientation == 2)
  {
  }

  /** The start and end offset of one regular-expression match. */
  datatype Span = Span(start: int, end: int)

  /** The tag's start or end lies within the span, bounds included. */
  predicate Touches(m: Span, startIndex: int, endIndex: int)
  {
    (m.start <= startIndex && startIndex <= m.end) || (m.start <= endIndex && endIndex <= m.end)
  }

  /** `tags_in_excepted_portion` over the spans `finditer` yields, in
      order. */
  function TagsInExceptedPortion(matches: seq<Span>, startIndex: int, endIndex: int): bool
    decreases |matches|
  {
    if |matches| == 0 then false
    else if Touches(matches[0], startIndex, endIndex) then true
    else TagsInExceptedPortion(matches[1..], startIndex, endIndex)
  }

  /** The early return finds a touching span exactly when there is one. */
  lemma {:induction false} TagsInExceptedPortionSpec(matches: seq<Span>, startIndex: int, endIndex: int)
    ensures TagsInExceptedPortion(matches, startIndex, endIndex)
            <==> exists i :: 0 <= i < |matches| && Touches(matches[i], startIndex, endIndex)
    decreases |matches|
  {
    if |matches| > 0 {
      TagsInExceptedPortionSpec(matches[1..], startIndex, endIndex);
      if exists i :: 0 <= i < |matches| && Touches(matches[i], startIndex, endIndex) {
        var i :| 0 <= i < |matches| && Touches(matches[i], startIndex, endIndex);
        if i > 0 {
          assert matches[1..][i - 1] == matches[i];
        }
      }
      if exists i :: 0 <= i < |matches[1..]| && Touches(matches[1..][i], startIndex, endIndex) {
        var i :| 0 <= i < |matches[1..]| && Touches(matches[1..][i], startIndex, endIndex);
        assert matches[i + 1] == matches[1..][i];
      }
    }
  }

  /** Python's `s[i:j]` for non-negative bounds: both are clipped to the
      length, and a reversed range is empty. */
  function Slice(s: string, i: nat, j: nat): (r: string)
    ensures |r| == if i <= j && i <= |s| then (if j <= |s| then j else |s|) - i else 0
  {
    var j' := if j <= |s| then j else |s|;
    if i <= j' then s[i..j'] else ""
  }

  /** `s[i:]` */
  function SliceFrom(s: string, i: nat): string
  {
    if i <= |s| then s[i..] else ""
  }

  /** The opening and closing markup of a tag. */
  function OpenTag(tag: string): string
  {
    "[" + tag + "]"
  }

  function CloseTag(tag: string): string
  {
    "[/" + tag + "]"
  }

  /** The splice of `single_tag_context_parser`: the opening marker of
      `size` characters at `start` becomes the opening tag, the marker at
      `end` the closing tag; when the closing marker would run past the
      end, the rest of the text is dropped. */
  function Splice(text: string, start: nat, end: nat, size: nat, tag: string): string
  {
    if end + size > |text| then
      Slice(text, 0, start) + OpenTag(tag) + Slice(text, start + size, end) + CloseTag(tag)
    else
      Slice(text, 0, start) + OpenTag(tag) + Slice(text, start + size, end) + CloseTag(tag)
      + SliceFrom(text, end + size)
  }

  /** For a marker pair inside the text, the splice is the text before
      the opening marker, the tag around the enclosed text, and the text
      after the closing marker. */
  lemma SpliceInside(text: string, start: nat, end: nat, size: nat, tag: string)
    requires start + size <= end && end + size <= |text|
    ensures Splice(text, start, end, size, tag)
            == text[..start] + OpenTag(tag) + text[start + size..end] + CloseTag(tag) + text[end + size..]
    ensures |Splice(text, start, end, size, tag)| == |text| - 2 * size + 2 * |tag| + 5
  {
  }

  /** Near the end of the text the tail after the closing position is
      lost, and the result ends with the closing tag. */
  lemma SpliceAtEnd(text: string, start: nat, end: nat, size: nat, tag: string)
    requires start + size <= end <= |text| < end + size
    ensures Splice(text, start, end, size, tag)
            == text[..start] + OpenTag(tag) + text[start + size..end] + CloseTag(tag)
  {
  }

  /** The splice never changes the text before the opening marker. */
  lemma SpliceKeepsPrefix(text: string, start: nat, end: nat, size: nat, tag: string, k: nat)
    requires k <= start && k <= |text|
    ensures k <= |Splice(text, start, end, size, tag)|
    ensures Splice(text, start, end, size, tag)[..k] == text[..k]
  {
    var p := Slice(text, 0, start);
    var r := Splice(text, start, end, size, tag);
    assert |p| >= k;
    assert p[..k] == text[..k];
    assert r == p + (r[|p|..]);
  }

  /** One search of the parser: given the text and the search position
      `pos`, the first match in `text[pos:]`, as offsets into that
      suffix. */
  type Search = (string, nat) -> Option<Span>

  /** The outcome of one iteration of the parser's loop: it stops, or it
      goes on with the current text and the next search position. */
  datatype Step = Stop | Go(text: string, next: nat)

  /** One iteration: the match found from `pos` on is skipped when it
      touches an excepted portion of the current text and spliced
      otherwise; either way the next search begins `size` characters after
      the match's start. Matches are offsets into the searched suffix; the
      regular expression never yields negative ones, and the model stops
      if it did. */
  function ParseStep(text: string, pos: nat, search: Search, excepted: string -> seq<Span>, tag: string,
                     size: nat): Step
  {
    match search(text, pos)
    case None => Stop
    case Some(m) =>
      if m.start < 0 || m.end < 0 then Stop
      else
        var start, end := m.start + pos, m.end + pos;
        if TagsInExceptedPortion(excepted(text), start, end) then Go(text, start + size)
        else Go(Splice(text, start, end, size, tag), start + size)
  }

  /** `single_tag_context_parser` from search position `pos` with `n`
      iterations of the initial match count left. */
  function ParseTags(text: string, pos: nat, n: nat, search: Search, excepted: string -> seq<Span>,
                     tag: string, size: nat): string
    decreases n
  {
    if n == 0 then text
    else
      match ParseStep(text, pos, search, excepted, tag, size)
      case Stop => text
      case Go(text', next) => ParseTags(text', next, n - 1, search, excepted, tag, size)
  }

  /** Without a usable match the parser stops with the text it has. */
  lemma ParseTagsStop(text: string, pos: nat, n: nat, search: Search, excepted: string -> seq<Span>,
                      tag: string, size: nat)
    requires n > 0
    requires match search(text, pos)
             case None => true
             case Some(m) => m.start < 0 || m.end < 0
    ensures ParseTags(text, pos, n, search, excepted, tag, size) == text
  {
  }

  /** The iteration after a match at non-negative offsets: the match is
      spliced unless it touches an excepted portion, and the search goes
      on `size` characters past its start. */
  lemma ParseStepMatch(text: string, pos: nat, search: Search, excepted: string -> seq<Span>, tag: string,
                       size: nat, m: Span)
    requires search(text, pos) == Some(m) && m.start >= 0 && m.end >= 0
    ensures var start, end := m.start + pos, m.end + pos;
            ParseStep(text, pos, search, excepted, tag, size)
            == Go(if TagsInExceptedPortion(excepted(text), start, end) then text
                  else Splice(text, start, end, size, tag), start + size)
  {
  }

  /** An iteration that goes on hands the rest of the work to the parser
      with one iteration fewer. */
  lemma ParseTagsGo(text: string, pos: nat, n: nat, search: Search, excepted: string -> seq<Span>,
                    tag: string, size: nat, text': string, next: nat)
    requires n > 0 && ParseStep(text, pos, search, excepted, tag, size) == Go(text', next)
    ensures ParseTags(text, pos, n, search, excepted, tag, size)
            == ParseTags(text', next, n - 1, search, excepted, tag, size)
  {
  }

  /** An iteration that stops ends the parser. */
  lemma ParseTagsHalt(text: string, pos: nat, n: nat, search: Search, excepted: string -> seq<Span>,
                      tag: string, size: nat)
    requires n > 0 && ParseStep(text, pos, search, excepted, tag, size) == Stop
    ensures ParseTags(text, pos, n, search, excepted, tag, size) == text
  {
  }

  /** An iteration keeps the text before its search position, and the
      next search position is not before it. */
  lemma ParseStepKeepsPrefix(text: string, pos: nat, search: Search, excepted: string -> seq<Span>, tag: string,
                             size: nat, k: nat, text': string, next: nat)
    requires k <= pos && k <= |text|
    requires ParseStep(text, pos, search, excepted, tag, size) == Go(text', next)
    ensures pos <= next && k <= |text'| && text'[..k] == text[..k]
  {
    var m := search(text, pos).value;
    ParseStepMatch(text, pos, search, excepted, tag, size, m);
    if !TagsInExceptedPortion(excepted(text), m.start + pos, m.end + pos) {
      var r := Splice(text, m.start + pos, m.end + pos, size, tag);
      SpliceKeepsPrefix(text, m.start + pos, m.end + pos, size, tag, k);
      assert k <= |r| && r[..k] == text[..k];
      assert text' == r;
    } else {
      assert text' == text;
    }
  }

  /** One iteration of the loop after a match at non-negative offsets,
      as the parser sees it. */
  lemma ParseTagsAdvance(text: string, pos: nat, n: nat, search: Search, excepted: string -> seq<Span>,
                         tag: string, size: nat, m: Span, text': string, next: nat, n': nat)
    requires n > 0 && n' == n - 1
    requires search(text, pos) == Some(m) && m.start >= 0 && m.end >= 0 && next == m.start + pos + size
    requires text' == if TagsInExceptedPortion(excepted(text), m.start + pos, m.end + pos) then text
                      else Splice(text, m.start + pos, m.end + pos, size, tag)
    ensures ParseTags(text, pos, n, search, excepted, tag, size) == ParseTags(text', next, n', search, excepted, tag, size)
  {
    ParseStepMatch(text, pos, search, excepted, tag, size, m);
    ParseTagsGo(text, pos, n, search, excepted, tag, size, text', next);
  }

  /** The parser never changes the text before its search position: every
      match lies after it, and so does the next search position. */
  lemma {:induction false} ParseTagsKeepsPrefix(text: string, pos: nat, n: nat, search: Search,
                                                excepted: string -> seq<Span>, tag: string, size: nat, k: nat)
    requires k <= pos && k <= |text|
    ensures k <= |ParseTags(text, pos, n, search, excepted, tag, size)|
    ensures ParseTags(text, pos, n, search, excepted, tag, size)[..k] == text[..k]
    decreases n
  {
    if n > 0 {
      var st := ParseStep(text, pos, search, excepted, tag, size);
      if st.Go? {
        ParseStepKeepsPrefix(text, pos, search, excepted, tag, size, k, st.text, st.next);
        ParseTagsGo(text, pos, n, search, excepted, tag, size, st.text, st.next);
        ParseTagsKeepsPrefix(st.text, st.next, n - 1, search, excepted, tag, size, k);
      } else {
        ParseTagsHalt(text, pos, n, search, excepted, tag, size);
      }
    }
  }

  /** Without any match the text is returned unchanged. */
  lemma ParseTagsNoMatch(text: string, pos: nat, n: nat, search: Search,
                         excepted: string -> seq<Span>, tag: string, size: nat)
    requires search(text, pos).None?
    ensures ParseTags(text, pos, n, search, excepted, tag, size) == text
  {
  }

  /** The loop of `single_tag_context_parser`, run once per match of the
      original text. */
  method SingleTagContextParser(text0: string, search: Search, excepted: string -> seq<Span>, tag: string,
                                size: nat, initialMatches: nat) returns (text: string)
    ensures text == ParseTags(text0, 0, initialMatches, search, excepted, tag, size)
  {
    ghost var goal := ParseTags(text0, 0, initialMatches, search, excepted, tag, size);
    text := text0;
    var nextSearchPosition: nat := 0;
    var left := initialMatches;
    while left > 0
      invariant ParseTags(text, nextSearchPosition, left, search, excepted, tag, size) == goal
      decreases left
    {
      var found := search(text, nextSearchPosition);
      if found.None? || found.value.start < 0 || found.value.end < 0 {
        ParseTagsStop(text, nextSearchPosition, left, search, excepted, tag, size);
        break;
      }
      var m := found.value;
      ghost var text1, pos1, left1 := text, nextSearchPosition, left;
      var startIndex: nat := m.start + nextSearchPosition;
      var endIndex: nat := m.end + nextSearchPosition;
      nextSearchPosition := startIndex + size;
      left := left - 1;
      if TagsInExceptedPortion(excepted(text), startIndex, endIndex) {
        ParseTagsAdvance(text1, pos1, left1, search, excepted, tag, size, m, text, nextSearchPosition, left);
        continue;
      }
      text := Splice(text, startIndex, endIndex, size, tag);
      ParseTagsAdvance(text1, pos1, left1, search, excepted, tag, size, m, text, nextSearchPosition, left);
    }
  }
}
