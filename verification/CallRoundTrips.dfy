/** A call printed into prose is the call the text channel finds. */
module CallRoundTrips {
  import opened Common
  import opened Text
  import opened TextCalls
  import Json
  import Utf8

  /** Sizes are those of the UTF-8 encoding. */
  lemma {:induction false} ByteLenIs(s: string)
    ensures ByteLen(s) == |Utf8.Encoded(s)|
  {
    if s != "" {
      var front, c := s[..|s| - 1], s[|s| - 1];
      assert s == front + [c];
      ByteLenIs(front);
      EncodedAppend(front, c);
    }
  }

  lemma {:induction false} EncodedAppend(front: string, c: char)
    ensures Utf8.Encoded(front + [c]) == Utf8.Encoded(front) + Utf8.EncodeScalar(c)
  {
    if front == "" {
      assert Utf8.Encoded("") == [] && (front + [c])[1..] == "";
    } else {
      assert (front + [c])[1..] == front[1..] + [c];
      EncodedAppend(front[1..], c);
    }
  }

  // ---- one call in prose ---------------------------------------------------

  /** No character that could start a call. */
  predicate CallFree(s: string) { forall i | 0 <= i < |s| :: s[i] != '{' && s[i] != '<' }

  /** If the middle is a call and the prose around it starts none, the response is
      accepted with that call and that prose. */
  lemma {:induction false} SoleCallIsParsed(x: Library, before: string, middle: string, after: string, call: Call, admitted: seq<string>, prefix: string)
    requires CallFree(before) && CallFree(after) && call.end == |before| + |middle|
    requires CallAt(x, before + middle + after, |before|) == Some(call)
    requires call.name in admitted && ByteLen(before + middle + after) <= MAX_TEXT_BYTES
    ensures Parsed(x, before + middle + after, admitted, prefix)
            == Ok(Some(Piece(before) + [ToolCall(CallId(prefix), call.name, call.arguments)] + Piece(after)))
  {
    var text := before + middle + after;
    var at := CallsOf(x, text);
    forall i: nat | i < |before| || call.end <= i ensures at(i) == None {
      NoCallIn(x, before, middle, after, i);
    }
    assert at(|before|) == Some(call);
    assert text[..|before|] == before && text[call.end..] == after;
    SoleCallIsExtracted(at, text, |before|, call, admitted, prefix);
  }

  lemma NoCallIn(x: Library, before: string, middle: string, after: string, i: nat)
    requires CallFree(before) && CallFree(after) && (i < |before| || |before| + |middle| <= i)
    ensures CallAt(x, before + middle + after, i) == None
  {
    var text := before + middle + after;
    if i < |before| {
      assert text[i] == before[i];
    } else if i < |text| {
      assert text[i] == after[i - |before| - |middle|];
    }
  }

  lemma {:induction false} FirstCallIs(at: Calls, n: nat, from: nat, p: nat)
    requires Inside(at, n) && from <= p && at(p).Some? && forall i | from <= i < p :: at(i) == None
    ensures NextCall(at, n, from) == Some((p, at(p).value))
    decreases p - from
  {
    if from < p {
      FirstCallIs(at, n, from + 1, p);
    }
  }

  lemma SoleCallIsExtracted(at: Calls, text: string, p: nat, call: Call, admitted: seq<string>, prefix: string)
    requires Inside(at, |text|) && at(p) == Some(call) && call.name in admitted
    requires forall i: nat | i < p || call.end <= i :: at(i) == None
    ensures p < call.end <= |text|
    ensures Extracted(at, text, admitted, prefix)
            == Ok(Some(Piece(text[..p]) + [ToolCall(CallId(prefix), call.name, call.arguments)] + Piece(text[call.end..])))
  {
    FirstCallIs(at, |text|, 0, p);
    NextCallIsFirst(at, |text|, call.end);
  }

  /** A call starts here, and none before it from `from` on. */
  ghost predicate FirstAt(x: Library, text: string, from: nat, p: nat, call: Call) {
    from <= p && CallAt(x, text, p) == Some(call) && forall i | from <= i < p :: CallAt(x, text, i) == None
  }

  ghost predicate NoneFrom(x: Library, text: string, from: nat) {
    forall i | from <= i :: CallAt(x, text, i) == None
  }

  /** The first call decides: it must be admitted, and so must the next one behind it be,
      and yet two are one too many. */
  lemma {:induction false} CallsDecide(x: Library, text: string, admitted: seq<string>, prefix: string, p: nat, call: Call, q: nat, second: Call)
    requires ByteLen(text) <= 8388608 && admitted != []
    ensures NoneFrom(x, text, 0) ==> Parsed(x, text, admitted, prefix) == Ok(None)
    ensures FirstAt(x, text, 0, p, call) && call.name !in admitted ==> Parsed(x, text, admitted, prefix) == Err(OutsideRequest)
    ensures FirstAt(x, text, 0, p, call) && call.name in admitted && FirstAt(x, text, call.end, q, second) ==>
              Parsed(x, text, admitted, prefix) == Err(if second.name in admitted then MoreThanOne else OutsideRequest)
    ensures FirstAt(x, text, 0, p, call) && call.name in admitted && NoneFrom(x, text, call.end) ==>
              call.end <= |text|
              && Parsed(x, text, admitted, prefix)
                 == Ok(Some(Piece(text[..p]) + [ToolCall(prefix + "_0", call.name, call.arguments)] + Piece(text[call.end..])))
  {
    var at := CallsOf(x, text);
    assert forall i: nat :: CallAt(x, text, i) == at(i);
    if NoneFrom(x, text, 0) {
      NextCallIsFirst(at, |text|, 0);
    }
    if FirstAt(x, text, 0, p, call) {
      FirstCallIs(at, |text|, 0, p);
      if FirstAt(x, text, call.end, q, second) {
        FirstCallIs(at, |text|, call.end, q);
      }
      if NoneFrom(x, text, call.end) {
        NextCallIsFirst(at, |text|, call.end);
      }
    }
  }

  // ---- JSON ----------------------------------------------------------------

  /** What a printed object must decode to: a name of 1 to 256 bytes, and arguments of at
      most 4 MiB, which are "{}" if there are none, the string itself if they are one, and
      printed otherwise. */
  ghost predicate Decodes(x: Library, printed: string, name: string, arguments: string) {
    && x.decode(printed).Some? && x.decode(printed).value.name == Some(name)
    && name != "" && ByteLen(name) <= 256 && ByteLen(arguments) <= 4194304
    && match x.decode(printed).value.arguments
       case Absent => arguments == "{}"
       case Literal(text) => arguments == text
       case Structured(text) => arguments == text
  }

  /** A brace starts a call if and only if an object ends somewhere behind it and that
      object decodes to the call. */
  lemma JsonCallIff(x: Library, text: string, start: nat, call: Call)
    requires start < |text| && text[start] == '{'
    ensures CallAt(x, text, start) == Some(call)
            <==> Json.ObjectSpan(text, start, call.end) && Decodes(x, text[start..call.end], call.name, call.arguments)
  {
    if e: nat :| Json.ObjectSpan(text, start, e) {
      SpanIsACall(x, text, start, e);
      forall f: nat | Json.ObjectSpan(text, start, f) ensures f == e {
        Json.SpanIsUnique(text, start, e, f);
      }
    }
  }

  lemma SpanIsACall(x: Library, text: string, start: nat, end: nat)
    requires Json.ObjectSpan(text, start, end)
    ensures CallAt(x, text, start) == DecodedCall(x, text[start..end], end)
  {
    forall e: nat | Json.ObjectSpan(text, start, e) ensures e == end {
      Json.SpanIsUnique(text, start, e, end);
    }
  }

  lemma SpanDecodes(x: Library, text: string, start: nat, end: nat, printed: string, call: Call)
    requires Json.ObjectSpan(text, start, end) && text[start..end] == printed
    requires DecodedCall(x, printed, end) == Some(call)
    ensures CallAt(x, text, start) == Some(call) && call.end == end
  {
    SpanIsACall(x, text, start, end);
  }

  /** Every well-formed printed object that decodes to a call is found where it stands,
      whatever surrounds it. */
  lemma PrintedCallAt(x: Library, before: string, v: Json.Value, after: string, call: Call)
    requires Json.Wf(v) && v.Obj?
    requires DecodedCall(x, Json.Print(v), |before| + |Json.Print(v)|) == Some(call)
    ensures CallAt(x, before + Json.Print(v) + after, |before|) == Some(call)
    ensures call.end == |before| + |Json.Print(v)|
  {
    var printed := Json.Print(v);
    Json.PrintedObjectIsSpan(before, v, after);
    MiddleStarts(before, printed, after);
    SpanDecodes(x, before + printed + after, |before|, |before| + |printed|, printed, call);
  }

  /** The same for a whole response. */
  lemma {:induction false} JsonCallRoundTrip(x: Library, before: string, v: Json.Value, after: string, call: Call, admitted: seq<string>, prefix: string)
    requires Json.Wf(v) && v.Obj? && CallFree(before) && CallFree(after)
    requires DecodedCall(x, Json.Print(v), |before| + |Json.Print(v)|) == Some(call) && call.name in admitted
    requires ByteLen(before + Json.Print(v) + after) <= MAX_TEXT_BYTES
    ensures Parsed(x, before + Json.Print(v) + after, admitted, prefix)
            == Ok(Some(Piece(before) + [ToolCall(CallId(prefix), call.name, call.arguments)] + Piece(after)))
  {
    PrintedCallAt(x, before, v, after, call);
    SoleCallIsParsed(x, before, Json.Print(v), after, call, admitted, prefix);
  }

  // ---- XML-ish -------------------------------------------------------------

  /** One argument as it may be written: blanks before either element, and white space
      around the key. */
  datatype Spelled = Spelled(before: string, left: string, key: string, right: string, between: string, value: string) {
    function Body(): string { left + key + right }

    function Pair(): (string, string) { (key, value) }
  }

  function PairsOf(xs: seq<Spelled>): (ps: Pairs)
    ensures |ps| == |xs| && forall i | 0 <= i < |ps| :: ps[i] == xs[i].Pair()
  {
    seq(|xs|, i requires 0 <= i < |xs| => xs[i].Pair())
  }

  function PrintKey(t: Tags, a: Spelled): string { t.keyStart + a.Body() + t.keyEnd }

  function PrintValue(t: Tags, a: Spelled): string { t.valueStart + a.value + t.valueEnd }

  function PrintArgument(t: Tags, a: Spelled): string { a.before + (PrintKey(t, a) + (a.between + PrintValue(t, a))) }

  function PrintArguments(t: Tags, xs: seq<Spelled>): string {
    if xs == [] then "" else PrintArgument(t, xs[0]) + PrintArguments(t, xs[1..])
  }

  /** A call with blanks before its name and before its closing tag. */
  function PrintXml(t: Tags, lead: string, name: string, xs: seq<Spelled>, trail: string, closing: string): string {
    t.start + (lead + name) + (PrintArguments(t, xs) + (trail + closing))
  }

  /** A space, tab, line feed, form feed or carriage return. */
  predicate IsGap(c: char) { c in " \t\n\r\U{000C}" }

  predicate Gap(s: string) { forall i | 0 <= i < |s| :: IsGap(s[i]) }

  /** A tag opens with the only angle bracket in it. */
  predicate IsTag(tag: string) {
    |tag| > 1 && tag[0] == '<' && forall i | 0 < i < |tag| :: tag[i] != '<'
  }

  /** The tags are tags, and no opening one looks like the closing one. */
  predicate TagsOk(t: Tags) {
    && IsTag(t.start) && IsTag(t.end) && IsTag(t.keyStart) && IsTag(t.keyEnd) && IsTag(t.valueStart) && IsTag(t.valueEnd)
    && t.start[1] != t.end[1] && t.keyStart[1] != t.end[1] && t.valueStart[1] != t.end[1]
  }

  ghost predicate Lacks(body: string, tag: string) { forall i: nat :: !StartsAt(body, i, tag) }

  ghost predicate SpelledOk(t: Tags, a: Spelled) {
    && Gap(a.before) && Gap(a.between) && AllBlank(a.left) && AllBlank(a.right)
    && a.key != "" && Trimmed(a.key) && Lacks(a.Body(), t.keyEnd)
    && Lacks(a.value, t.valueEnd) && ByteLen(a.value) <= 4194304
  }

  ghost predicate AllSpelledOk(t: Tags, xs: seq<Spelled>) {
    && (forall i | 0 <= i < |xs| :: SpelledOk(t, xs[i]))
    && (forall i, j | 0 <= i < j < |xs| :: xs[i].key != xs[j].key)
  }

  /** How a call may end: with its closing tag, or without one where nothing but other
      text follows. */
  predicate Closes(t: Tags, closing: string, after: string) {
    closing == t.end || (closing == "" && (after == "" || !IsGap(after[0])))
  }

  lemma StartsAtSplit(text: string, at: nat, a: string, b: string)
    requires StartsAt(text, at, a + b)
    ensures StartsAt(text, at, a) && StartsAt(text, at + |a|, b)
  {
    var whole := text[at..at + |a + b|];
    assert text[at..at + |a|] == whole[..|a|] == a;
    assert text[at + |a|..at + |a| + |b|] == whole[|a|..] == b;
  }

  lemma CharAt(text: string, at: nat, pattern: string, k: nat)
    requires StartsAt(text, at, pattern) && k < |pattern|
    ensures text[at + k] == pattern[k]
  {
    assert text[at..at + |pattern|][k] == text[at + k];
  }

  /** A tag cannot begin inside text that lacks it and end inside the tag that follows. */
  lemma TagIsFound(text: string, at: nat, body: string, tag: string)
    requires IsTag(tag) && Lacks(body, tag) && StartsAt(text, at, body) && StartsAt(text, at + |body|, tag)
    ensures Find(text, tag, at) == Some(at + |body|)
  {
    forall i | at <= i < at + |body| ensures !StartsAt(text, i, tag) {
      NoEarlierTag(text, at, body, tag, i);
    }
    FindIs(text, tag, at, at + |body|);
  }

  lemma NoEarlierTag(text: string, at: nat, body: string, tag: string, i: nat)
    requires IsTag(tag) && Lacks(body, tag) && StartsAt(text, at, body) && StartsAt(text, at + |body|, tag)
    requires at <= i < at + |body|
    ensures !StartsAt(text, i, tag)
  {
    if StartsAt(text, i, tag) {
      if i + |tag| <= at + |body| {
        forall k | 0 <= k < |tag| ensures body[i - at + k] == tag[k] {
          CharAt(text, i, tag, k);
          CharAt(text, at, body, i - at + k);
        }
        SpelledOut(body, i - at, tag);
        assert false;
      } else {
        CharAt(text, at + |body|, tag, 0);
        CharAt(text, i, tag, at + |body| - i);
      }
    }
  }

  lemma SpelledOut(text: string, at: nat, pattern: string)
    requires at + |pattern| <= |text| && forall k | 0 <= k < |pattern| :: text[at + k] == pattern[k]
    ensures StartsAt(text, at, pattern)
  {
  }

  lemma ElementIsFound(text: string, at: nat, open: string, body: string, close: string)
    requires IsTag(close) && Lacks(body, close) && StartsAt(text, at, open + body + close)
    ensures Element(text, at, open, close) == Some((body, at + |open + body + close|))
  {
    StartsAtSplit(text, at, open + body, close);
    StartsAtSplit(text, at, open, body);
    TagIsFound(text, at + |open|, body, close);
  }

  /** No blanks and no closing tag where another tag stands. */
  lemma OtherTagAt(text: string, at: nat, tag: string, other: string)
    requires StartsAt(text, at, tag) && |tag| > 1 && |other| > 1 && tag[0] == '<' && tag[1] != other[1]
    ensures at < |text| && text[at] == '<' && !StartsAt(text, at, other)
  {
    CharAt(text, at, tag, 0);
    CharAt(text, at, tag, 1);
    if StartsAt(text, at, other) {
      CharAt(text, at, other, 1);
    }
  }

  /** Blanks are skipped up to the first other character. */
  lemma {:induction false} GapIsSkipped(text: string, at: nat, end: nat)
    requires at <= end <= |text| && (forall i | at <= i < end :: IsAsciiBlank(text[i]))
    requires end == |text| || !IsAsciiBlank(text[end])
    ensures SkipBlanks(text, at) == end
    decreases end - at
  {
    if at < end {
      GapIsSkipped(text, at + 1, end);
    }
  }

  lemma GapAt(text: string, at: nat, gap: string)
    requires Gap(gap) && StartsAt(text, at, gap) && (at + |gap| == |text| || !IsAsciiBlank(text[at + |gap|]))
    ensures SkipBlanks(text, at) == at + |gap|
  {
    forall i | at <= i < at + |gap| ensures IsAsciiBlank(text[i]) {
      CharAt(text, at, gap, i - at);
    }
    GapIsSkipped(text, at, at + |gap|);
  }

  lemma {:induction false} LeftTrimmed(left: string, rest: string)
    requires AllBlank(left) && (rest == "" || !IsWhitespace(rest[0]))
    ensures TrimStart(left + rest) == rest
  {
    if left == "" {
      assert left + rest == rest;
    } else {
      assert (left + rest)[0] == left[0] && (left + rest)[1..] == left[1..] + rest;
      LeftTrimmed(left[1..], rest);
    }
  }

  lemma {:induction false} RightTrimmed(core: string, right: string)
    requires AllBlank(right) && (core == "" || !IsWhitespace(core[|core| - 1]))
    ensures TrimEnd(core + right) == core
  {
    var s := core + right;
    if right == "" {
      assert s == core;
    } else {
      assert s[|s| - 1] == right[|right| - 1] && s[..|s| - 1] == core + right[..|right| - 1];
      RightTrimmed(core, right[..|right| - 1]);
    }
  }

  /** White space around a key does not belong to it. */
  lemma KeyIsTrimmed(a: Spelled)
    requires AllBlank(a.left) && AllBlank(a.right) && a.key != "" && Trimmed(a.key)
    ensures Trim(a.Body()) == a.key
  {
    assert a.Body() == a.left + (a.key + a.right);
    LeftTrimmed(a.left, a.key + a.right);
    RightTrimmed(a.key, a.right);
  }

  /** The argument whose two elements stand here. */
  lemma ArgumentFromElements(t: Tags, text: string, from: nat, at: nat, body: string, keyEnd: nat, middle: nat, v: string, end: nat, seen: Pairs)
    requires from <= at <= keyEnd <= middle <= |text| && SkipBlanks(text, from) == at && SkipBlanks(text, keyEnd) == middle
    requires !StartsAt(text, at, t.end) && StartsAt(text, at, t.keyStart)
    requires Element(text, at, t.keyStart, t.keyEnd) == Some((body, keyEnd))
    requires Element(text, middle, t.valueStart, t.valueEnd) == Some((v, end))
    requires Trim(body) != "" && !HasKey(seen, Trim(body)) && ByteLen(v) <= MAX_ARGUMENT_BYTES
    ensures ArgumentAt(t, text, from, seen) == Next(Trim(body), v, end)
  {
  }

  /** The pieces of a printed argument, where they stand. */
  lemma ArgumentPieces(t: Tags, text: string, at: nat, a: Spelled)
    requires StartsAt(text, at, PrintArgument(t, a))
    ensures StartsAt(text, at, a.before) && StartsAt(text, at + |a.before|, PrintKey(t, a))
    ensures var m := at + |a.before| + |PrintKey(t, a)|;
            && StartsAt(text, m, a.between) && StartsAt(text, m + |a.between|, PrintValue(t, a))
            && m + |a.between| + |PrintValue(t, a)| == at + |PrintArgument(t, a)|
  {
    var tail := a.between + PrintValue(t, a);
    StartsAtSplit(text, at, a.before, PrintKey(t, a) + tail);
    StartsAtSplit(text, at + |a.before|, PrintKey(t, a), tail);
    StartsAtSplit(text, at + |a.before| + |PrintKey(t, a)|, a.between, PrintValue(t, a));
  }

  /** An element with this body stands at `p`, behind the blanks from `from`, and ends at
      `end`. */
  predicate ElementBehind(text: string, from: nat, p: nat, open: string, body: string, close: string, end: nat) {
    from <= p <= end <= |text| && SkipBlanks(text, from) == p && Element(text, p, open, close) == Some((body, end))
  }

  /** An element behind a gap. */
  lemma StandsBehind(t: Tags, text: string, at: nat, gap: string, open: string, body: string, close: string, p: nat, end: nat)
    requires IsTag(open) && IsTag(close) && IsTag(t.end) && open[1] != t.end[1] && Gap(gap) && Lacks(body, close)
    requires p == at + |gap| && end == p + |open + body + close| && StartsAt(text, at, gap) && StartsAt(text, p, open + body + close)
    ensures ElementBehind(text, at, p, open, body, close, end) && !StartsAt(text, p, t.end) && StartsAt(text, p, open)
  {
    ElementStands(t, text, p, open, body, close);
    GapAt(text, at, gap);
  }

  lemma KeyBehind(t: Tags, text: string, at: nat, a: Spelled, p: nat, m: nat)
    requires TagsOk(t) && SpelledOk(t, a) && p == at + |a.before| && m == p + |PrintKey(t, a)|
    requires StartsAt(text, at, a.before) && StartsAt(text, p, PrintKey(t, a))
    ensures ElementBehind(text, at, p, t.keyStart, a.Body(), t.keyEnd, m) && !StartsAt(text, p, t.end) && StartsAt(text, p, t.keyStart)
    ensures Trim(a.Body()) == a.key != "" && ByteLen(a.value) <= MAX_ARGUMENT_BYTES
  {
    StandsBehind(t, text, at, a.before, t.keyStart, a.Body(), t.keyEnd, p, m);
    KeyIsTrimmed(a);
  }

  lemma ValueBehind(t: Tags, text: string, m: nat, a: Spelled, q: nat, end: nat)
    requires TagsOk(t) && SpelledOk(t, a) && q == m + |a.between| && end == q + |PrintValue(t, a)|
    requires StartsAt(text, m, a.between) && StartsAt(text, q, PrintValue(t, a))
    ensures ElementBehind(text, m, q, t.valueStart, a.value, t.valueEnd, end)
  {
    StandsBehind(t, text, m, a.between, t.valueStart, a.value, t.valueEnd, q, end);
  }

  lemma ArgumentStands(t: Tags, text: string, at: nat, p: nat, body: string, m: nat, q: nat, value: string, end: nat, key: string, seen: Pairs)
    requires ElementBehind(text, at, p, t.keyStart, body, t.keyEnd, m) && !StartsAt(text, p, t.end) && StartsAt(text, p, t.keyStart)
    requires ElementBehind(text, m, q, t.valueStart, value, t.valueEnd, end)
    requires Trim(body) == key != "" && !HasKey(seen, key) && ByteLen(value) <= MAX_ARGUMENT_BYTES
    ensures ArgumentAt(t, text, at, seen) == Next(key, value, end)
  {
    ArgumentFromElements(t, text, at, p, body, m, q, value, end, seen);
  }

  lemma ArgumentIsFound(t: Tags, text: string, at: nat, a: Spelled, seen: Pairs)
    requires TagsOk(t)
    requires SpelledOk(t, a) && !HasKey(seen, a.key) && StartsAt(text, at, PrintArgument(t, a))
    ensures ArgumentAt(t, text, at, seen) == Next(a.key, a.value, at + |PrintArgument(t, a)|)
  {
    var p := at + |a.before|;
    var m := p + |PrintKey(t, a)|;
    var q := m + |a.between|;
    var end := q + |PrintValue(t, a)|;
    ArgumentPieces(t, text, at, a);
    KeyBehind(t, text, at, a, p, m);
    ValueBehind(t, text, m, a, q, end);
    ArgumentStands(t, text, at, p, a.Body(), m, q, a.value, end, a.key, seen);
  }

  /** A printed element is found; it is no closing tag of the call. */
  lemma ElementStands(t: Tags, text: string, at: nat, open: string, body: string, close: string)
    requires IsTag(open) && IsTag(close) && IsTag(t.end) && open[1] != t.end[1]
    requires Lacks(body, close) && StartsAt(text, at, open + body + close)
    ensures Element(text, at, open, close) == Some((body, at + |open + body + close|))
    ensures at < |text| && text[at] == '<' && !StartsAt(text, at, t.end) && StartsAt(text, at, open)
  {
    ElementIsFound(text, at, open, body, close);
    StartsAtSplit(text, at, open + body, close);
    StartsAtSplit(text, at, open, body);
    OtherTagAt(text, at, open, t.end);
  }

  lemma ArgumentIsRead(t: Tags, text: string, at: nat, a: Spelled, seen: Pairs, read: Reader)
    requires TagsOk(t) && Reads(read, t, text)
    requires SpelledOk(t, a) && !HasKey(seen, a.key) && StartsAt(text, at, PrintArgument(t, a))
    ensures read(at, seen) == Next(a.key, a.value, at + |PrintArgument(t, a)|)
  {
    ArgumentIsFound(t, text, at, a, seen);
  }

  /** `tail` ends a call: blanks and the closing tag, or blanks where the text stops. */
  predicate IsTail(t: Tags, text: string, tail: string, trail: string, closing: string, end: nat) {
    Gap(trail) && tail == trail + closing && (closing == t.end || (closing == "" && StopsAt(t, text, end)))
  }

  /** After the arguments the call ends, behind the blanks there and its closing tag. */
  lemma EndIsFound(t: Tags, text: string, at: nat, tail: string, trail: string, closing: string, end: nat, seen: Pairs)
    requires TagsOk(t) && StartsAt(text, at, tail) && end == at + |tail| && IsTail(t, text, tail, trail, closing, end)
    ensures ArgumentAt(t, text, at, seen) == Last(end)
  {
    StartsAtSplit(text, at, trail, closing);
    if closing == t.end {
      OtherTagAt(text, at + |trail|, t.end, t.start);
      GapAt(text, at, trail);
    } else {
      GapAt(text, at, trail);
    }
  }

  /** Neither a blank, nor the closing tag, nor another argument stands here. */
  predicate StopsAt(t: Tags, text: string, at: nat) {
    && at <= |text| && (at == |text| || !IsGap(text[at]))
    && !StartsAt(text, at, t.end) && !StartsAt(text, at, t.keyStart)
  }

  lemma PrintedNext(t: Tags, xs: seq<Spelled>, tail: string)
    requires xs != []
    ensures PrintArguments(t, xs) + tail == PrintArgument(t, xs[0]) + (PrintArguments(t, xs[1..]) + tail)
    ensures |PrintArgument(t, xs[0])| >= |t.keyStart|
  {
  }

  lemma CollectNext(read: Reader, n: nat, at: nat, seen: Pairs, k: string, v: string, next: nat)
    requires read(at, seen) == Next(k, v, next) && at < next <= n
    ensures Collect(read, n, at, seen) == Collect(read, n, next, seen + [(k, v)])
  {
  }

  lemma CollectLast(read: Reader, n: nat, at: nat, seen: Pairs, end: nat)
    requires read(at, seen) == Last(end) && at <= end <= n
    ensures Collect(read, n, at, seen) == Some((seen, end))
  {
  }

  lemma {:induction false} ArgumentsAreFound(t: Tags, text: string, at: nat, xs: seq<Spelled>, tail: string, done: seq<Spelled>, end: nat, read: Reader)
    requires TagsOk(t) && Reads(read, t, text)
    requires AllSpelledOk(t, done + xs) && StartsAt(text, at, PrintArguments(t, xs) + tail)
    requires read(at + |PrintArguments(t, xs)|, PairsOf(done + xs)) == Last(end) && at + |PrintArguments(t, xs)| <= end <= |text|
    ensures Collect(read, |text|, at, PairsOf(done)) == Some((PairsOf(done + xs), end))
    decreases |xs|
  {
    if xs == [] {
      assert done + xs == done;
      CollectLast(read, |text|, at, PairsOf(done), end);
    } else {
      var a := xs[0];
      var printed := PrintArgument(t, a);
      PrintedNext(t, xs, tail);
      StartsAtSplit(text, at, printed, PrintArguments(t, xs[1..]) + tail);
      NextSpelled(t, done, xs);
      ArgumentIsRead(t, text, at, a, PairsOf(done), read);
      CollectNext(read, |text|, at, PairsOf(done), a.key, a.value, at + |printed|);
      ArgumentsAreFound(t, text, at + |printed|, xs[1..], tail, done + [a], end, read);
    }
  }

  lemma NextSpelled(t: Tags, done: seq<Spelled>, xs: seq<Spelled>)
    requires AllSpelledOk(t, done + xs) && xs != []
    ensures SpelledOk(t, xs[0]) && !HasKey(PairsOf(done), xs[0].key)
    ensures done + xs == done + [xs[0]] + xs[1..] && PairsOf(done + [xs[0]]) == PairsOf(done) + [xs[0].Pair()]
  {
    assert (done + xs)[|done|] == xs[0];
    forall i | 0 <= i < |done| ensures done[i].key != xs[0].key {
      assert (done + xs)[i] == done[i];
    }
  }

  lemma WordIsFound(text: string, at: nat, name: string)
    requires StartsAt(text, at, name) && name != "" && (forall i | 0 <= i < |name| :: !EndsName(name[i]))
    requires at + |name| < |text| && EndsName(text[at + |name|])
    ensures !IsAsciiBlank(text[at]) && NameEnd(text, at) == at + |name| && Trim(text[at..at + |name|]) == name
  {
    forall i | at <= i < at + |name| ensures !EndsName(text[i]) {
      CharAt(text, at, name, i - at);
    }
    assert !EndsName(text[at]) && !EndsName(name[0]) && !EndsName(name[|name| - 1]);
    NameEndIs(text, at, at + |name|);
    TrimSpec(name);
  }

  lemma NameFromParts(t: Tags, text: string, at: nat, p: nat, name: string)
    requires StartsAt(text, at, t.start) && SkipBlanks(text, at + |t.start|) == p && p + |name| <= |text|
    requires NameEnd(text, p) == p + |name| && Trim(text[p..p + |name|]) == name && NameOk(name)
    ensures XmlName(t, text, at) == Some((name, p + |name|))
  {
  }

  lemma NameStands(t: Tags, text: string, at: nat, m: nat, lead: string, p: nat, name: string)
    requires Gap(lead) && NameOk(name) && (forall i | 0 <= i < |name| :: !EndsName(name[i]))
    requires m == at + |t.start| && p == m + |lead| && StartsAt(text, at, t.start) && StartsAt(text, m, lead) && StartsAt(text, p, name)
    requires p + |name| < |text| && EndsName(text[p + |name|])
    ensures XmlName(t, text, at) == Some((name, p + |name|))
  {
    WordIsFound(text, p, name);
    GapAt(text, m, lead);
    NameFromParts(t, text, at, p, name);
  }

  lemma NameIsFound(t: Tags, text: string, at: nat, lead: string, name: string)
    requires Gap(lead) && NameOk(name) && (forall i | 0 <= i < |name| :: !EndsName(name[i]))
    requires StartsAt(text, at, t.start + (lead + name))
    requires at + |t.start + (lead + name)| < |text| && EndsName(text[at + |t.start + (lead + name)|])
    ensures XmlName(t, text, at) == Some((name, at + |t.start + (lead + name)|))
  {
    StartsAtSplit(text, at, t.start, lead + name);
    StartsAtSplit(text, at + |t.start|, lead, name);
    NameStands(t, text, at, at + |t.start|, lead, at + |t.start| + |lead|, name);
  }

  lemma CallFromParts(x: Library, t: Tags, text: string, at: nat, name: string, p: nat, ps: Pairs, end: nat)
    requires XmlName(t, text, at) == Some((name, p)) && ArgumentsFrom(t, text, p) == Some((ps, end))
    requires ps != [] && ByteLen(x.render(ps)) <= MAX_ARGUMENT_BYTES
    ensures XmlCall(x, t, text, at) == Some(Call(name, x.render(ps), end))
  {
  }

  lemma CallSplits(t: Tags, text: string, at: nat, lead: string, name: string, xs: seq<Spelled>, trail: string, closing: string)
    requires StartsAt(text, at, PrintXml(t, lead, name, xs, trail, closing))
    ensures var p := at + |t.start + (lead + name)|;
            && StartsAt(text, at, t.start + (lead + name)) && StartsAt(text, p, PrintArguments(t, xs) + (trail + closing))
            && |PrintXml(t, lead, name, xs, trail, closing)| == |t.start + (lead + name)| + |PrintArguments(t, xs)| + |trail + closing|
  {
    StartsAtSplit(text, at, t.start + (lead + name), PrintArguments(t, xs) + (trail + closing));
  }

  /** What the printed call puts where. */
  lemma PrintedParts(t: Tags, text: string, at: nat, lead: string, name: string, xs: seq<Spelled>, trail: string, closing: string)
    requires TagsOk(t) && xs != [] && SpelledOk(t, xs[0]) && StartsAt(text, at, PrintXml(t, lead, name, xs, trail, closing))
    ensures var p := at + |t.start + (lead + name)|;
            && StartsAt(text, at, t.start + (lead + name)) && StartsAt(text, p, PrintArguments(t, xs) + (trail + closing))
            && p < |text| && EndsName(text[p])
            && |PrintXml(t, lead, name, xs, trail, closing)| == |t.start + (lead + name)| + |PrintArguments(t, xs)| + |trail + closing|
  {
    CallSplits(t, text, at, lead, name, xs, trail, closing);
    ArgumentsOpen(t, text, at + |t.start + (lead + name)|, xs, trail + closing);
  }

  lemma ArgumentsOpen(t: Tags, text: string, p: nat, xs: seq<Spelled>, tail: string)
    requires TagsOk(t) && xs != [] && Gap(xs[0].before) && StartsAt(text, p, PrintArguments(t, xs) + tail)
    ensures p < |text| && EndsName(text[p])
  {
    PrintedOpens(t, xs, tail);
    CharAt(text, p, PrintArguments(t, xs) + tail, 0);
  }

  lemma ReaderReads(t: Tags, text: string)
    ensures Reads(ReaderOf(t, text), t, text)
  {
  }

  lemma AllArgumentsAreCollected(t: Tags, text: string, at: nat, xs: seq<Spelled>, tail: string, end: nat, read: Reader)
    requires TagsOk(t) && AllSpelledOk(t, xs) && StartsAt(text, at, PrintArguments(t, xs) + tail) && Reads(read, t, text)
    requires read(at + |PrintArguments(t, xs)|, PairsOf(xs)) == Last(end) && at + |PrintArguments(t, xs)| <= end <= |text|
    ensures Collect(read, |text|, at, []) == Some((PairsOf(xs), end))
  {
    assert [] + xs == xs && PairsOf([]) == [];
    ArgumentsAreFound(t, text, at, xs, tail, [], end, read);
  }

  /** A printed call is found where it stands, with its name and all its arguments in
      order, whatever blanks are in it and whatever surrounds it. */
  lemma PrintedXmlIsACall(x: Library, t: Tags, text: string, at: nat, lead: string, name: string, xs: seq<Spelled>, trail: string, closing: string, end: nat)
    requires TagsOk(t) && Gap(lead) && Gap(trail)
    requires NameOk(name) && (forall i | 0 <= i < |name| :: !EndsName(name[i]))
    requires xs != [] && AllSpelledOk(t, xs) && ByteLen(x.render(PairsOf(xs))) <= MAX_ARGUMENT_BYTES
    requires StartsAt(text, at, PrintXml(t, lead, name, xs, trail, closing)) && end == at + |PrintXml(t, lead, name, xs, trail, closing)|
    requires closing == t.end || (closing == "" && StopsAt(t, text, end))
    ensures XmlCall(x, t, text, at) == Some(Call(name, x.render(PairsOf(xs)), end))
  {
    var p := at + |t.start + (lead + name)|;
    PrintedNameIsFound(t, text, at, lead, name, xs, trail, closing, p);
    PrintedArgumentsAreFound(t, text, at, lead, name, xs, trail, closing, p, end);
    CallFromParts(x, t, text, at, name, p, PairsOf(xs), end);
  }

  lemma PrintedNameIsFound(t: Tags, text: string, at: nat, lead: string, name: string, xs: seq<Spelled>, trail: string, closing: string, p: nat)
    requires TagsOk(t) && Gap(lead) && NameOk(name) && (forall i | 0 <= i < |name| :: !EndsName(name[i]))
    requires xs != [] && SpelledOk(t, xs[0]) && p == at + |t.start + (lead + name)|
    requires StartsAt(text, at, PrintXml(t, lead, name, xs, trail, closing))
    ensures XmlName(t, text, at) == Some((name, p))
  {
    PrintedParts(t, text, at, lead, name, xs, trail, closing);
    NameIsFound(t, text, at, lead, name);
  }

  lemma PrintedArgumentsAreFound(t: Tags, text: string, at: nat, lead: string, name: string, xs: seq<Spelled>, trail: string, closing: string, p: nat, end: nat)
    requires TagsOk(t) && xs != [] && AllSpelledOk(t, xs) && Gap(trail)
    requires StartsAt(text, at, PrintXml(t, lead, name, xs, trail, closing))
    requires p == at + |t.start + (lead + name)| && end == at + |PrintXml(t, lead, name, xs, trail, closing)|
    requires closing == t.end || (closing == "" && StopsAt(t, text, end))
    ensures ArgumentsFrom(t, text, p) == Some((PairsOf(xs), end))
  {
    var q := p + |PrintArguments(t, xs)|;
    PrintedTail(t, text, at, lead, name, xs, trail, closing, p);
    ReaderReads(t, text);
    ArgumentsAndEnd(t, text, p, xs, q, trail + closing, trail, closing, end, ReaderOf(t, text));
  }

  lemma EndIsRead(t: Tags, text: string, at: nat, tail: string, trail: string, closing: string, end: nat, seen: Pairs, read: Reader)
    requires TagsOk(t) && Reads(read, t, text) && StartsAt(text, at, tail) && end == at + |tail| && IsTail(t, text, tail, trail, closing, end)
    ensures read(at, seen) == Last(end)
  {
    EndIsFound(t, text, at, tail, trail, closing, end, seen);
    assert ArgumentAt(t, text, at, seen) == read(at, seen);
  }

  lemma ArgumentsAndEnd(t: Tags, text: string, p: nat, xs: seq<Spelled>, q: nat, tail: string, trail: string, closing: string, end: nat, read: Reader)
    requires TagsOk(t) && AllSpelledOk(t, xs) && q == p + |PrintArguments(t, xs)| && end == q + |tail| <= |text| && Reads(read, t, text)
    requires StartsAt(text, p, PrintArguments(t, xs) + tail) && StartsAt(text, q, tail) && IsTail(t, text, tail, trail, closing, end)
    ensures Collect(read, |text|, p, []) == Some((PairsOf(xs), end))
  {
    EndIsRead(t, text, q, tail, trail, closing, end, PairsOf(xs), read);
    AllArgumentsAreCollected(t, text, p, xs, tail, end, read);
  }

  lemma PrintedTail(t: Tags, text: string, at: nat, lead: string, name: string, xs: seq<Spelled>, trail: string, closing: string, p: nat)
    requires TagsOk(t) && xs != [] && SpelledOk(t, xs[0]) && p == at + |t.start + (lead + name)|
    requires StartsAt(text, at, PrintXml(t, lead, name, xs, trail, closing))
    ensures StartsAt(text, p, PrintArguments(t, xs) + (trail + closing))
    ensures var q := p + |PrintArguments(t, xs)|;
            && StartsAt(text, q, trail + closing)
            && q + |trail + closing| == at + |PrintXml(t, lead, name, xs, trail, closing)| <= |text|
            && (closing == "" ==> q + |trail| == q + |trail + closing|)
  {
    PrintedParts(t, text, at, lead, name, xs, trail, closing);
    StartsAtSplit(text, p, PrintArguments(t, xs), trail + closing);
  }

  lemma PrintedOpens(t: Tags, xs: seq<Spelled>, tail: string)
    requires TagsOk(t) && xs != [] && Gap(xs[0].before)
    ensures var s := PrintArguments(t, xs) + tail; s != "" && EndsName(s[0])
  {
    var s := PrintArguments(t, xs) + tail;
    assert s[0] == PrintArgument(t, xs[0])[0];
    if xs[0].before == "" {
      assert PrintArgument(t, xs[0])[0] == t.keyStart[0];
    } else {
      assert PrintArgument(t, xs[0])[0] == xs[0].before[0];
    }
  }

  lemma TagsAreOk()
    ensures TagsOk(TAGS)
  {
  }

  lemma XmlIsCallAt(x: Library, t: Tags, text: string, at: nat, call: Call)
    requires t == TAGS && XmlCall(x, t, text, at) == Some(call) && at < |text| && text[at] == '<'
    ensures CallAt(x, text, at) == Some(call)
  {
  }

  lemma PrintedXmlCallAt(x: Library, t: Tags, text: string, at: nat, lead: string, name: string, xs: seq<Spelled>, trail: string, closing: string, call: Call)
    requires t == TAGS && TagsOk(t) && Gap(lead) && Gap(trail)
    requires NameOk(name) && (forall i | 0 <= i < |name| :: !EndsName(name[i]))
    requires xs != [] && AllSpelledOk(t, xs) && ByteLen(x.render(PairsOf(xs))) <= MAX_ARGUMENT_BYTES
    requires StartsAt(text, at, PrintXml(t, lead, name, xs, trail, closing))
    requires call == Call(name, x.render(PairsOf(xs)), at + |PrintXml(t, lead, name, xs, trail, closing)|)
    requires closing == t.end || (closing == "" && StopsAt(t, text, call.end))
    ensures CallAt(x, text, at) == Some(call)
  {
    assert at < |text| && text[at] == '<' by {
      PrintedParts(t, text, at, lead, name, xs, trail, closing);
      StartsAtSplit(text, at, t.start, lead + name);
      CharAt(text, at, t.start, 0);
    }
    PrintedXmlIsACall(x, t, text, at, lead, name, xs, trail, closing, call.end);
    XmlIsCallAt(x, t, text, at, call);
  }

  lemma MiddleStarts(before: string, middle: string, after: string)
    ensures StartsAt(before + middle + after, |before|, middle)
  {
    assert (before + middle + after)[|before|..|before| + |middle|] == middle;
  }

  lemma ProseStops(t: Tags, before: string, middle: string, after: string)
    requires TagsOk(t) && CallFree(after) && (after == "" || !IsGap(after[0]))
    ensures StopsAt(t, before + middle + after, |before| + |middle|)
  {
    var text, at := before + middle + after, |before| + |middle|;
    if after != "" {
      assert text[at] == after[0];
      NoTagAt(text, at, t.end);
      NoTagAt(text, at, t.keyStart);
    }
  }

  lemma NoTagAt(text: string, at: nat, tag: string)
    requires IsTag(tag) && at < |text| && text[at] != '<'
    ensures !StartsAt(text, at, tag)
  {
  }

  /** The same for a whole response. */
  lemma {:induction false} XmlCallRoundTrip(x: Library, t: Tags, before: string, lead: string, name: string, xs: seq<Spelled>, trail: string, closing: string,
                                            after: string, admitted: seq<string>, prefix: string)
    requires t == TAGS && Gap(lead) && Gap(trail) && Closes(t, closing, after)
    requires NameOk(name) && (forall i | 0 <= i < |name| :: !EndsName(name[i])) && name in admitted
    requires xs != [] && AllSpelledOk(t, xs) && ByteLen(x.render(PairsOf(xs))) <= MAX_ARGUMENT_BYTES
    requires CallFree(before) && CallFree(after)
    requires ByteLen(before + PrintXml(t, lead, name, xs, trail, closing) + after) <= MAX_TEXT_BYTES
    ensures Parsed(x, before + PrintXml(t, lead, name, xs, trail, closing) + after, admitted, prefix)
            == Ok(Some(Piece(before) + [ToolCall(CallId(prefix), name, x.render(PairsOf(xs)))] + Piece(after)))
  {
    var printed := PrintXml(t, lead, name, xs, trail, closing);
    var call := Call(name, x.render(PairsOf(xs)), |before| + |printed|);
    WrittenInProse(x, t, before, lead, name, xs, trail, closing, after, printed, call);
    SoleCallIsParsed(x, before, printed, after, call, admitted, prefix);
  }

  lemma WrittenInProse(x: Library, t: Tags, before: string, lead: string, name: string, xs: seq<Spelled>, trail: string, closing: string,
                       after: string, printed: string, call: Call)
    requires t == TAGS && Gap(lead) && Gap(trail) && Closes(t, closing, after) && CallFree(after)
    requires NameOk(name) && (forall i | 0 <= i < |name| :: !EndsName(name[i]))
    requires xs != [] && AllSpelledOk(t, xs) && ByteLen(x.render(PairsOf(xs))) <= MAX_ARGUMENT_BYTES
    requires printed == PrintXml(t, lead, name, xs, trail, closing) && call == Call(name, x.render(PairsOf(xs)), |before| + |printed|)
    ensures CallAt(x, before + printed + after, |before|) == Some(call)
  {
    MiddleStarts(before, printed, after);
    TagsAreOk();
    if closing == "" {
      ProseStops(t, before, printed, after);
    }
    PrintedXmlCallAt(x, t, before + printed + after, |before|, lead, name, xs, trail, closing, call);
  }
}
