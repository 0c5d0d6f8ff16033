/** The text field of the input example: content in UTF-8, platform offsets in UTF-16.

    Content is a sequence of Unicode scalar values; offsets count code units of one of the two
    encodings (section 3 of RFC 3629, section 2.1 of RFC 2781).
 */
module TextInput {
  import opened Basics

  type Scalar = c: int | 0 <= c < 0xD800 || 0xE000 <= c < 0x11_0000 witness 0

  datatype Encoding = Utf8 | Utf16

  /** Code units of one scalar value. */
  function Units(e: Encoding, c: Scalar): nat {
    match e
    case Utf8 => if c < 0x80 then 1 else if c < 0x800 then 2 else if c < 0x1_0000 then 3 else 4
    case Utf16 => if c < 0x1_0000 then 1 else 2
  }

  function Len(e: Encoding, s: seq<Scalar>): nat {
    if s == [] then 0 else Len(e, s[..|s| - 1]) + Units(e, s[|s| - 1])
  }

  /** Offset of the `k`-th character. */
  function At(e: Encoding, s: seq<Scalar>, k: nat): nat
    requires k <= |s|
  {
    Len(e, s[..k])
  }

  ghost predicate IsBoundary(e: Encoding, s: seq<Scalar>, offset: nat) {
    exists k: nat :: k <= |s| && At(e, s, k) == offset
  }

  lemma AtStep(e: Encoding, s: seq<Scalar>, k: nat)
    requires k < |s|
    ensures At(e, s, k + 1) == At(e, s, k) + Units(e, s[k])
  {
    assert s[..k + 1][..k] == s[..k];
  }

  lemma {:induction false} AtMonotone(e: Encoding, s: seq<Scalar>, j: nat, k: nat)
    requires j <= k <= |s|
    ensures At(e, s, j) <= At(e, s, k)
    ensures j < k ==> At(e, s, j) < At(e, s, k)
    decreases k - j
  {
    if j < k {
      AtMonotone(e, s, j, k - 1);
      AtStep(e, s, k - 1);
    }
  }

  // ---- The encodings themselves ----

  predicate Tail(b: int) { 0x80 <= b <= 0xBF }

  /** The byte sequences that section 4 of RFC 3629 admits for one character. */
  predicate WellFormedUtf8(b: seq<int>) {
    || (|b| == 1 && 0x00 <= b[0] <= 0x7F)
    || (|b| == 2 && 0xC2 <= b[0] <= 0xDF && Tail(b[1]))
    || (|b| == 3 && Tail(b[2]) &&
        (|| (b[0] == 0xE0 && 0xA0 <= b[1] <= 0xBF)
         || (0xE1 <= b[0] <= 0xEC && Tail(b[1]))
         || (b[0] == 0xED && 0x80 <= b[1] <= 0x9F)
         || (0xEE <= b[0] <= 0xEF && Tail(b[1]))))
    || (|b| == 4 && Tail(b[2]) && Tail(b[3]) &&
        (|| (b[0] == 0xF0 && 0x90 <= b[1] <= 0xBF)
         || (0xF1 <= b[0] <= 0xF3 && Tail(b[1]))
         || (b[0] == 0xF4 && 0x80 <= b[1] <= 0x8F)))
  }

  function DecodeUtf8(b: seq<int>): int
    requires WellFormedUtf8(b)
  {
    match |b|
    case 1 => b[0]
    case 2 => (b[0] - 0xC0) * 0x40 + (b[1] - 0x80)
    case 3 => (b[0] - 0xE0) * 0x1000 + (b[1] - 0x80) * 0x40 + (b[2] - 0x80)
    case _ => (b[0] - 0xF0) * 0x4_0000 + (b[1] - 0x80) * 0x1000 + (b[2] - 0x80) * 0x40 + (b[3] - 0x80)
  }

  /** One unit outside the surrogates, or a high and a low surrogate: section 2.1 of RFC 2781. */
  predicate WellFormedUtf16(u: seq<int>) {
    || (|u| == 1 && 0 <= u[0] <= 0xFFFF && !(0xD800 <= u[0] <= 0xDFFF))
    || (|u| == 2 && 0xD800 <= u[0] <= 0xDBFF && 0xDC00 <= u[1] <= 0xDFFF)
  }

  function DecodeUtf16(u: seq<int>): int
    requires WellFormedUtf16(u)
  {
    if |u| == 1 then u[0] else 0x1_0000 + (u[0] - 0xD800) * 0x400 + (u[1] - 0xDC00)
  }

  /** The code units stand for the character. */
  predicate Encodes(e: Encoding, units: seq<int>, c: int) {
    match e
    case Utf8 => WellFormedUtf8(units) && DecodeUtf8(units) == c
    case Utf16 => WellFormedUtf16(units) && DecodeUtf16(units) == c
  }

  /** Every code unit sequence of a character has the length that is counted for it. */
  lemma UnitsCount(e: Encoding, units: seq<int>, c: Scalar)
    requires Encodes(e, units, c)
    ensures |units| == Units(e, c)
  {
  }

  /** And every character has one. */
  lemma UnitsExist(e: Encoding, c: Scalar) returns (units: seq<int>)
    ensures Encodes(e, units, c)
  {
    match e {
      case Utf8 =>
        var q0, t0 := c / 0x40, c % 0x40;
        var q1, t1 := q0 / 0x40, q0 % 0x40;
        if c < 0x80 {
          units := [c];
        } else if c < 0x800 {
          units := [0xC0 + q0, 0x80 + t0];
        } else if c < 0x1_0000 {
          units := ThreeBytes(c, q1, t1, t0);
        } else {
          units := FourBytes(c, q1 / 0x40, q1 % 0x40, t1, t0);
        }
      case Utf16 =>
        if c < 0x1_0000 {
          units := [c];
        } else {
          var high, low := (c - 0x1_0000) / 0x400, (c - 0x1_0000) % 0x400;
          units := [0xD800 + high, 0xDC00 + low];
        }
    }
  }

  lemma ThreeBytes(c: Scalar, t2: int, t1: int, t0: int) returns (units: seq<int>)
    requires 0x800 <= c < 0x1_0000 && c == t2 * 0x1000 + t1 * 0x40 + t0
    requires 0 <= t0 < 0x40 && 0 <= t1 < 0x40
    ensures Encodes(Utf8, units, c)
  {
    units := [0xE0 + t2, 0x80 + t1, 0x80 + t0];
  }

  lemma FourBytes(c: Scalar, t3: int, t2: int, t1: int, t0: int) returns (units: seq<int>)
    requires 0x1_0000 <= c && c == t3 * 0x4_0000 + t2 * 0x1000 + t1 * 0x40 + t0
    requires 0 <= t0 < 0x40 && 0 <= t1 < 0x40 && 0 <= t2 < 0x40
    ensures Encodes(Utf8, units, c)
  {
    units := [0xF0 + t3, 0x80 + t2, 0x80 + t1, 0x80 + t0];
  }

  /** The text as code units, each character's behind the one before. */
  ghost predicate EncodesText(e: Encoding, parts: seq<seq<int>>, s: seq<Scalar>) {
    |parts| == |s| && forall k :: 0 <= k < |s| ==> Encodes(e, parts[k], s[k])
  }

  function Flat(parts: seq<seq<int>>): seq<int> {
    if parts == [] then [] else Flat(parts[..|parts| - 1]) + parts[|parts| - 1]
  }

  lemma {:induction false} LenOfText(e: Encoding, parts: seq<seq<int>>, s: seq<Scalar>)
    requires EncodesText(e, parts, s)
    ensures Len(e, s) == |Flat(parts)|
  {
    hide Encodes;
    if s != [] {
      var n := |s| - 1;
      UnitsCount(e, parts[n], s[n]);
      LenOfText(e, parts[..n], s[..n]);
    }
  }

  lemma {:induction false} FlatPrefix(parts: seq<seq<int>>, k: nat)
    requires k <= |parts|
    ensures Flat(parts[..k]) <= Flat(parts)
    decreases |parts|
  {
    if k == |parts| {
      assert parts[..k] == parts;
    } else {
      var init := parts[..|parts| - 1];
      FlatPrefix(init, k);
      assert init[..k] == parts[..k];
    }
  }

  /** The offset of a character is where its code units begin in the encoded text. */
  lemma OffsetInText(e: Encoding, parts: seq<seq<int>>, s: seq<Scalar>, k: nat)
    requires EncodesText(e, parts, s) && k <= |s|
    ensures At(e, s, k) == |Flat(parts[..k])| && Flat(parts[..k]) <= Flat(parts)
    ensures k < |s| ==> Flat(parts[..k]) + parts[k] <= Flat(parts)
  {
    hide Encodes;
    LenOfText(e, parts[..k], s[..k]);
    FlatPrefix(parts, k);
    if k < |s| {
      FlatPrefix(parts, k + 1);
      assert parts[..k + 1][..k] == parts[..k];
    }
  }

  /** The first character whose offset reaches `offset`, or the end. */
  function CharsFor(e: Encoding, s: seq<Scalar>, offset: nat, from: nat): (k: nat)
    requires from <= |s|
    ensures from <= k <= |s|
    ensures k < |s| ==> At(e, s, k) >= offset
    ensures forall j :: from <= j < k ==> At(e, s, j) < offset
    decreases |s| - from
  {
    if from == |s| || At(e, s, from) >= offset then from else CharsFor(e, s, offset, from + 1)
  }

  /** An offset in one encoding as an offset in the other. */
  function Convert(e: Encoding, to: Encoding, s: seq<Scalar>, offset: nat): nat {
    At(to, s, CharsFor(e, s, offset, 0))
  }

  /** Both conversions of the source: count characters until the offset is reached. */
  method ConvertOffset(e: Encoding, to: Encoding, s: seq<Scalar>, offset: nat) returns (r: nat)
    ensures r == Convert(e, to, s, offset)
  {
    r := 0;
    var count := 0;
    var i := 0;
    while i < |s| && count < offset
      invariant 0 <= i <= |s| && count == At(e, s, i) && r == At(to, s, i)
      invariant CharsFor(e, s, offset, i) == CharsFor(e, s, offset, 0)
    {
      AtStep(e, s, i);
      AtStep(to, s, i);
      count := count + Units(e, s[i]);
      r := r + Units(to, s[i]);
      i := i + 1;
    }
  }

  /** Conversions are monotone and always land on a character boundary. */
  lemma ConvertMonotone(e: Encoding, to: Encoding, s: seq<Scalar>, a: nat, b: nat)
    requires a <= b
    ensures Convert(e, to, s, a) <= Convert(e, to, s, b)
    ensures IsBoundary(to, s, Convert(e, to, s, a))
  {
    var j, k := CharsFor(e, s, a, 0), CharsFor(e, s, b, 0);
    assert k == |s| || At(e, s, k) >= b;
    assert j <= k;
    AtMonotone(to, s, j, k);
  }

  /** On boundaries the two conversions undo each other; off boundaries they round up to the
      next character, and past the end they stop there. */
  lemma ConvertInverse(e: Encoding, to: Encoding, s: seq<Scalar>, k: nat)
    requires k <= |s|
    ensures Convert(e, to, s, At(e, s, k)) == At(to, s, k)
    ensures Convert(to, e, s, Convert(e, to, s, At(e, s, k))) == At(e, s, k)
  {
    CharsAtBoundary(e, s, k);
    CharsAtBoundary(to, s, k);
  }

  lemma CharsAtBoundary(e: Encoding, s: seq<Scalar>, k: nat)
    requires k <= |s|
    ensures CharsFor(e, s, At(e, s, k), 0) == k
  {
    var j := CharsFor(e, s, At(e, s, k), 0);
    if j < k {
      AtMonotone(e, s, j, k);
    }
  }

  lemma ConvertRoundsUp(e: Encoding, to: Encoding, s: seq<Scalar>, k: nat, offset: nat)
    requires k < |s| && At(e, s, k) < offset
    ensures offset <= At(e, s, k + 1) ==> Convert(e, to, s, offset) == At(to, s, k + 1)
    ensures At(e, s, |s|) < offset ==> Convert(e, to, s, offset) == At(to, s, |s|)
  {
    var j := CharsFor(e, s, offset, 0);
    if j <= k {
      AtMonotone(e, s, j, k);
    }
    if j < |s| {
      AtMonotone(e, s, j, |s|);
    }
  }

  /** The character at a boundary. */
  function IndexAt(s: seq<Scalar>, offset: nat): (k: nat)
    ensures k <= |s|
    ensures IsBoundary(Utf8, s, offset) ==> At(Utf8, s, k) == offset
  {
    var k := CharsFor(Utf8, s, offset, 0);
    assert IsBoundary(Utf8, s, offset) ==> At(Utf8, s, k) == offset by {
      if IsBoundary(Utf8, s, offset) {
        var j: nat :| j <= |s| && At(Utf8, s, j) == offset;
        CharsAtBoundary(Utf8, s, j);
      }
    }
    k
  }

  lemma {:induction false} LenConcat(e: Encoding, a: seq<Scalar>, b: seq<Scalar>)
    ensures Len(e, a + b) == Len(e, a) + Len(e, b)
    decreases |b|
  {
    if b == [] {
      assert a + b == a;
    } else {
      assert (a + b)[..|a + b| - 1] == a + b[..|b| - 1];
      LenConcat(e, a, b[..|b| - 1]);
    }
  }

  datatype Range = Range(start: nat, end: nat)

  ghost predicate RangeOk(s: seq<Scalar>, r: Range) {
    r.start <= r.end && IsBoundary(Utf8, s, r.start) && IsBoundary(Utf8, s, r.end)
  }

  /** The content after the characters between two boundaries are replaced. */
  function Replaced(s: seq<Scalar>, r: Range, text: seq<Scalar>): seq<Scalar> {
    s[..IndexAt(s, r.start)] + text + s[IndexAt(s, r.end)..]
  }

  /** Between the offsets of two characters: what is before the first, the text, and what is from
      the second on. */
  lemma ReplacedChars(s: seq<Scalar>, r: Range, text: seq<Scalar>, i: nat, j: nat)
    requires i <= |s| && j <= |s| && At(Utf8, s, i) == r.start && At(Utf8, s, j) == r.end
    ensures Replaced(s, r, text) == s[..i] + text + s[j..]
  {
    hide Len;
    var i', j' := IndexAt(s, r.start), IndexAt(s, r.end);
    if i < i' { AtMonotone(Utf8, s, i, i'); } else { AtMonotone(Utf8, s, i', i); }
    if j < j' { AtMonotone(Utf8, s, j, j'); } else { AtMonotone(Utf8, s, j', j); }
  }

  /** The caret behind inserted text is on a boundary of the new content. */
  lemma CaretBehindText(s: seq<Scalar>, r: Range, text: seq<Scalar>)
    requires IsBoundary(Utf8, s, r.start)
    ensures IsBoundary(Utf8, Replaced(s, r, text), r.start + Len(Utf8, text))
  {
    var k := IndexAt(s, r.start);
    var s' := Replaced(s, r, text);
    assert s'[..k + |text|] == s[..k] + text;
    LenConcat(Utf8, s[..k], text);
    assert At(Utf8, s', k + |text|) == r.start + Len(Utf8, text);
  }

  /** Where grapheme clusters begin; known only to be character boundaries in order. */
  type Segmenter = seq<Scalar> -> seq<nat>

  ghost predicate SegmenterOk(graphemes: Segmenter) {
    forall s: seq<Scalar>, i :: 0 <= i < |graphemes(s)| ==> IsBoundary(Utf8, s, graphemes(s)[i])
  }

  /** `r` is the last start before the offset, or 0 if there is none. */
  ghost predicate LastBefore(starts: seq<nat>, offset: nat, r: nat) {
    || (r == 0 && forall j :: 0 <= j < |starts| ==> starts[j] >= offset)
    || exists i :: 0 <= i < |starts| && starts[i] == r < offset && forall j :: i < j < |starts| ==> starts[j] >= offset
  }

  /** `r` is the first start after the offset, or the end if there is none. */
  ghost predicate FirstAfter(starts: seq<nat>, offset: nat, r: nat, end: nat) {
    || (r == end && forall j :: 0 <= j < |starts| ==> starts[j] <= offset)
    || exists i :: 0 <= i < |starts| && starts[i] == r > offset && forall j :: 0 <= j < i ==> starts[j] <= offset
  }

  class TextField {
    const graphemes: Segmenter
    var content: seq<Scalar>
    var selectedRange: Range
    var selectionReversed: bool
    var markedRange: Option<Range>

    /** Selection and marked text are ordered and on character boundaries, hence inside. */
    ghost predicate Valid()
      reads this
    {
      && SegmenterOk(graphemes)
      && RangeOk(content, selectedRange)
      && (markedRange.Some? ==> RangeOk(content, markedRange.value))
    }

    constructor (graphemes: Segmenter)
      requires SegmenterOk(graphemes)
      ensures Valid() && content == []
    {
      this.graphemes := graphemes;
      content, selectedRange, selectionReversed, markedRange := [], Range(0, 0), false, None;
      new;
      assert At(Utf8, [], 0) == 0;
    }

    function CursorOffset(): nat
      reads this
    {
      if selectionReversed then selectedRange.start else selectedRange.end
    }

    /** The offset opposite to the cursor, which selecting keeps in place. */
    function Anchor(): nat
      reads this
    {
      if selectionReversed then selectedRange.end else selectedRange.start
    }

    method MoveTo(offset: nat)
      requires Valid() && IsBoundary(Utf8, content, offset)
      modifies this`selectedRange
      ensures Valid() && selectedRange == Range(offset, offset)
    {
      selectedRange := Range(offset, offset);
    }

    /** Moves the cursor and leaves the anchor: the range flips when they cross. */
    method SelectTo(offset: nat)
      requires Valid() && IsBoundary(Utf8, content, offset)
      modifies this`selectedRange, this`selectionReversed
      ensures Valid() && CursorOffset() == offset && Anchor() == old(Anchor())
    {
      if selectionReversed {
        selectedRange := selectedRange.(start := offset);
      } else {
        selectedRange := selectedRange.(end := offset);
      }
      if selectedRange.end < selectedRange.start {
        selectionReversed := !selectionReversed;
        selectedRange := Range(selectedRange.end, selectedRange.start);
      }
    }

    /** The last grapheme start before the offset, or the beginning. */
    method PreviousBoundary(offset: nat) returns (r: nat)
      requires Valid()
      ensures IsBoundary(Utf8, content, r) && r <= offset
      ensures LastBefore(graphemes(content), offset, r)
    {
      var starts := graphemes(content);
      var i := |starts|;
      assert At(Utf8, content, 0) == 0;
      while i > 0
        invariant 0 <= i <= |starts|
        invariant forall j :: i <= j < |starts| ==> starts[j] >= offset
      {
        i := i - 1;
        if starts[i] < offset {
          return starts[i];
        }
      }
      return 0;
    }

    /** The first grapheme start after the offset, or the end. */
    method NextBoundary(offset: nat) returns (r: nat)
      requires Valid()
      ensures IsBoundary(Utf8, content, r)
      ensures FirstAfter(graphemes(content), offset, r, Len(Utf8, content))
    {
      var starts := graphemes(content);
      assert content[..|content|] == content;
      assert At(Utf8, content, |content|) == Len(Utf8, content);
      for i := 0 to |starts|
        invariant forall j :: 0 <= j < i ==> starts[j] <= offset
      {
        if starts[i] > offset {
          return starts[i];
        }
      }
      return Len(Utf8, content);
    }

    method Left()
      requires Valid()
      modifies this`selectedRange
      ensures Valid() && selectedRange.start == selectedRange.end <= old(selectedRange).start
      ensures if old(selectedRange.start < selectedRange.end) then selectedRange.start == old(selectedRange).start
              else LastBefore(graphemes(content), old(selectedRange).start, selectedRange.start)
    {
      if selectedRange.start == selectedRange.end {
        var target := PreviousBoundary(CursorOffset());
        MoveTo(target);
      } else {
        MoveTo(selectedRange.start);
      }
    }

    method Right()
      requires Valid()
      modifies this`selectedRange
      ensures Valid() && old(selectedRange).end <= selectedRange.start == selectedRange.end
      ensures if old(selectedRange.start < selectedRange.end) then selectedRange.start == old(selectedRange).end
              else FirstAfter(graphemes(content), old(selectedRange).end, selectedRange.start, Len(Utf8, content))
    {
      if selectedRange.start == selectedRange.end {
        BoundaryInside(content, selectedRange.end);
        var target := NextBoundary(selectedRange.end);
        MoveTo(target);
      } else {
        MoveTo(selectedRange.end);
      }
    }

    method SelectAll()
      requires Valid()
      modifies this`selectedRange, this`selectionReversed
      ensures Valid() && selectedRange == Range(0, Len(Utf8, content))
    {
      Ends(content);
      MoveTo(0);
      SelectTo(Len(Utf8, content));
    }

    /** Replaces the given UTF-16 range, or else the marked text, or else the selection; the
        caret ends behind the new text. */
    method ReplaceTextInRange(rangeUtf16: Option<Range>, text: seq<Scalar>)
      requires Valid()
      modifies this`content, this`selectedRange, this`markedRange
      ensures Valid() && markedRange == None
      ensures var range := Target(old(content), rangeUtf16, old(markedRange), old(selectedRange));
              && content == Replaced(old(content), range, text)
              && selectedRange == Range(range.start + Len(Utf8, text), range.start + Len(Utf8, text))
    {
      var range := selectedRange;
      if rangeUtf16.Some? {
        var start := ConvertOffset(Utf16, Utf8, content, rangeUtf16.value.start);
        var end := ConvertOffset(Utf16, Utf8, content, rangeUtf16.value.end);
        range := Range(start, end);
        ConvertMonotone(Utf16, Utf8, content, rangeUtf16.value.start, rangeUtf16.value.start);
      } else if markedRange.Some? {
        range := markedRange.value;
      }
      CaretBehindText(content, range, text);
      content := Replaced(content, range, text);
      selectedRange := Range(range.start + Len(Utf8, text), range.start + Len(Utf8, text));
      markedRange := None;
    }

    /** Deletes the selection, or the grapheme before the cursor. */
    method Backspace()
      requires Valid()
      modifies this
      ensures Valid() && selectedRange.start == selectedRange.end
      ensures old(markedRange).Some? ==> content == Replaced(old(content), old(markedRange).value, [])
      ensures old(markedRange) == None && old(selectedRange.start < selectedRange.end) ==>
                content == Replaced(old(content), old(selectedRange), [])
      ensures old(markedRange) == None && old(selectedRange.start == selectedRange.end) ==>
                && LastBefore(graphemes(old(content)), old(selectedRange).end, selectedRange.start)
                && content == Replaced(old(content), Range(selectedRange.start, old(selectedRange).end), [])
    {
      hide LastBefore, Replaced, SegmenterOk;
      if selectedRange.start == selectedRange.end {
        var target := PreviousBoundary(CursorOffset());
        SelectTo(target);
      }
      ReplaceTextInRange(None, []);
    }
  }

  /** Which range an edit applies to. */
  function Target(s: seq<Scalar>, rangeUtf16: Option<Range>, marked: Option<Range>, selected: Range): Range {
    if rangeUtf16.Some? then
      Range(Convert(Utf16, Utf8, s, rangeUtf16.value.start), Convert(Utf16, Utf8, s, rangeUtf16.value.end))
    else if marked.Some? then marked.value
    else selected
  }

  lemma BoundaryInside(s: seq<Scalar>, offset: nat)
    requires IsBoundary(Utf8, s, offset)
    ensures offset <= Len(Utf8, s)
  {
    var k: nat :| k <= |s| && At(Utf8, s, k) == offset;
    AtMonotone(Utf8, s, k, |s|);
    assert s[..|s|] == s;
  }

  lemma Ends(s: seq<Scalar>)
    ensures IsBoundary(Utf8, s, 0) && IsBoundary(Utf8, s, Len(Utf8, s))
  {
    assert At(Utf8, s, 0) == 0;
    assert s[..|s|] == s;
    assert At(Utf8, s, |s|) == Len(Utf8, s);
  }

  /** An ordered edit removes exactly the characters between its ends and adds the new ones. */
  lemma ReplacedLength(s: seq<Scalar>, r: Range, text: seq<Scalar>)
    requires RangeOk(s, r)
    ensures Len(Utf8, Replaced(s, r, text)) == Len(Utf8, s) - (r.end - r.start) + Len(Utf8, text)
    ensures Replaced(s, r, s[IndexAt(s, r.start)..IndexAt(s, r.end)]) == s
  {
    hide Len, IndexAt, IsBoundary;
    var i, j := IndexAt(s, r.start), IndexAt(s, r.end);
    if j < i { AtMonotone(Utf8, s, j, i); }
    LenConcat(Utf8, s[..i] + text, s[j..]);
    LenConcat(Utf8, s[..i], text);
    LenConcat(Utf8, s[..j], s[j..]);
    assert s[..j] + s[j..] == s;
    assert s[..i] + s[i..j] + s[j..] == s;
  }
}
