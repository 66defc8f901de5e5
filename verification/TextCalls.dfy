/** The plain-text tool channel: exactly one admitted JSON or XML-ish call inside a
model's prose. Positions count scalar values; sizes count UTF-8 bytes. */
module TextCalls {
  import opened Common
  import opened Text
  import Json

  const MAX_TEXT_BYTES: nat := 8 * 1024 * 1024
  const MAX_NAME_BYTES: nat := 256
  const MAX_ARGUMENT_BYTES: nat := 4 * 1024 * 1024

  function Width(c: char): nat {
    if c < '\U{0080}' then 1 else if c < '\U{0800}' then 2 else if c < '\U{10000}' then 3 else 4
  }

  function ByteLen(s: string): nat {
    if s == [] then 0 else ByteLen(s[..|s| - 1]) + Width(s[|s| - 1])
  }

  method Utf8Length(s: string) returns (n: nat)
    ensures n == ByteLen(s)
  {
    n := 0;
    for i := 0 to |s|
      invariant n == ByteLen(s[..i])
    {
      assert s[..i + 1][..i] == s[..i];
      n := n + Width(s[i]);
    }
    assert s[..|s|] == s;
  }

  /** A decoded JSON object: its string-valued name and its arguments. */
  datatype Decoded = Decoded(name: Option<string>, arguments: Arguments)

  datatype Arguments = Absent | Literal(text: string) | Structured(printed: string)

  /** The JSON library: decoding an object, and printing a map of strings. */
  datatype Library = Library(decode: string -> Option<Decoded>, render: seq<(string, string)> -> string)

  datatype Call = Call(name: string, arguments: string, end: nat)

  function ArgumentText(a: Arguments): string {
    match a
    case Absent => "{}"
    case Literal(text) => text
    case Structured(printed) => printed
  }

  // ---- JSON calls ----------------------------------------------------------

  predicate NameOk(name: string) { name != "" && ByteLen(name) <= MAX_NAME_BYTES }

  function DecodedCall(x: Library, span: string, end: nat): Option<Call> {
    var d := x.decode(span);
    if d.None? || d.value.name.None? || !NameOk(d.value.name.value) then None
    else
      var arguments := ArgumentText(d.value.arguments);
      if ByteLen(arguments) > MAX_ARGUMENT_BYTES then None else Some(Call(d.value.name.value, arguments, end))
  }

  /** The call in the least balanced object at `start`, if there is one. */
  ghost function JsonCall(x: Library, text: string, start: nat): (r: Option<Call>)
    ensures r.Some? ==> start < r.value.end <= |text|
  {
    if e: nat :| Json.ObjectSpan(text, start, e) then DecodedCall(x, text[start..e], e) else None
  }

  method ParseJsonCall(x: Library, text: string, start: nat) returns (r: Option<Call>)
    ensures r == JsonCall(x, text, start)
  {
    var end := Json.BalancedJsonObjectEnd(text, start);
    if end.None? {
      return None;
    }
    assert Json.ObjectSpan(text, start, end.value);
    assert forall e: nat | Json.ObjectSpan(text, start, e) :: e == end.value;
    var d := x.decode(text[start..end.value]);
    if d.None? || d.value.name.None? {
      return None;
    }
    var name := d.value.name.value;
    var size := Utf8Length(name);
    if name == "" || size > MAX_NAME_BYTES {
      return None;
    }
    var arguments := ArgumentText(d.value.arguments);
    size := Utf8Length(arguments);
    if size > MAX_ARGUMENT_BYTES {
      return None;
    }
    r := Some(Call(name, arguments, end.value));
  }

  // ---- XML-ish calls -------------------------------------------------------

  /** The markup of a call. */
  datatype Markup = Markup(start: string, end: string, keyStart: string, keyEnd: string, valueStart: string, valueEnd: string)

  type Tags = m: Markup | m.start != "" && m.keyStart != "" witness Markup("<t", "", "<k", "", "", "")

  const TAGS: Tags :=
    Markup("<tool_call>", "</tool_call>", "<arg_key>", "</arg_key>", "<arg_value>", "</arg_value>")

  predicate StartsAt(text: string, at: nat, pattern: string) {
    at + |pattern| <= |text| && text[at..at + |pattern|] == pattern
  }

  function Find(text: string, pattern: string, from: nat): (r: Option<nat>)
    ensures r.Some? ==> from <= r.value && r.value + |pattern| <= |text|
    decreases |text| + 1 - from
  {
    if from > |text| then None else if StartsAt(text, from, pattern) then Some(from) else Find(text, pattern, from + 1)
  }

  predicate IsAsciiBlank(c: char) { c == ' ' || c == '\t' || c == '\n' || c == '\U{000C}' || c == '\r' }

  function SkipBlanks(text: string, at: nat): (p: nat)
    requires at <= |text|
    ensures at <= p <= |text|
    decreases |text| - at
  {
    if at < |text| && IsAsciiBlank(text[at]) then SkipBlanks(text, at + 1) else at
  }

  predicate EndsName(c: char) { c == '<' || IsWhitespace(c) }

  function NameEnd(text: string, at: nat): (p: nat)
    requires at <= |text|
    ensures at <= p <= |text|
    decreases |text| - at
  {
    if at < |text| && !EndsName(text[at]) then NameEnd(text, at + 1) else at
  }

  /** The first occurrence, and no other. */
  lemma {:induction false} FindIs(text: string, pattern: string, from: nat, at: nat)
    requires from <= at && StartsAt(text, at, pattern)
    requires forall i | from <= i < at :: !StartsAt(text, i, pattern)
    ensures Find(text, pattern, from) == Some(at)
    decreases at - from
  {
    if from < at {
      FindIs(text, pattern, from + 1, at);
    }
  }

  lemma {:induction false} NameEndIs(text: string, from: nat, at: nat)
    requires from <= at < |text| && EndsName(text[at])
    requires forall i | from <= i < at :: !EndsName(text[i])
    ensures NameEnd(text, from) == at
    decreases at - from
  {
    if from < at {
      NameEndIs(text, from + 1, at);
    }
  }

  type Pairs = seq<(string, string)>

  predicate HasKey(ps: Pairs, key: string) { exists i | 0 <= i < |ps| :: ps[i].0 == key }

  datatype Argument = Last(at: nat) | Malformed | Next(key: string, value: string, at: nat)

  /** The body of the element at `at`, and where it ends. */
  function Element(text: string, at: nat, open: string, close: string): (r: Option<(string, nat)>)
    ensures r.Some? ==> at + |open| + |close| <= r.value.1 <= |text|
    ensures r.Some? ==> StartsAt(text, at, open)
  {
    if !StartsAt(text, at, open) then None
    else
      var end := Find(text, close, at + |open|);
      if end.None? then None else Some((text[at + |open|..end.value], end.value + |close|))
  }

  /** What stands at `from`: the end of the arguments, or one more of them. */
  function ArgumentAt(t: Tags, text: string, from: nat, seen: Pairs): (r: Argument)
    requires from <= |text|
    ensures r.Last? ==> from <= r.at <= |text|
    ensures r.Next? ==> from < r.at <= |text|
  {
    var p := SkipBlanks(text, from);
    if StartsAt(text, p, t.end) then Last(p + |t.end|)
    else if !StartsAt(text, p, t.keyStart) then Last(p)
    else
      var key := Element(text, p, t.keyStart, t.keyEnd);
      if key.None? || Trim(key.value.0) == "" || HasKey(seen, Trim(key.value.0)) then Malformed
      else
        var value := Element(text, SkipBlanks(text, key.value.1), t.valueStart, t.valueEnd);
        if value.None? || ByteLen(value.value.0) > MAX_ARGUMENT_BYTES then Malformed
        else Next(Trim(key.value.0), value.value.0, value.value.1)
  }

  /** What the argument loop reads at a position, given the arguments so far. */
  type Reader = (nat, Pairs) -> Argument

  function ReaderOf(t: Tags, text: string): Reader {
    (from: nat, seen: Pairs) => if from <= |text| then ArgumentAt(t, text, from, seen) else Malformed
  }

  /** `read` reads this text. */
  ghost predicate Reads(read: Reader, t: Tags, text: string) {
    forall from: nat, seen: Pairs {:trigger ArgumentAt(t, text, from, seen)} | from <= |text| ::
      ArgumentAt(t, text, from, seen) == read(from, seen)
  }

  /** Arguments up to the first thing that is none; they must make progress. */
  function Collect(read: Reader, n: nat, from: nat, seen: Pairs): (r: Option<(Pairs, nat)>)
    decreases n - from
  {
    match read(from, seen)
    case Last(at) => if from <= at <= n then Some((seen, at)) else None
    case Malformed => None
    case Next(key, value, at) => if from < at <= n then Collect(read, n, at, seen + [(key, value)]) else None
  }

  lemma {:induction false} CollectStays(read: Reader, n: nat, from: nat, seen: Pairs)
    ensures var r := Collect(read, n, from, seen); r.Some? ==> from <= r.value.1 <= n
    decreases n - from
  {
    var a := read(from, seen);
    if a.Next? && from < a.at <= n {
      CollectStays(read, n, a.at, seen + [(a.key, a.value)]);
    }
  }

  function ArgumentsFrom(t: Tags, text: string, from: nat): (r: Option<(Pairs, nat)>)
    ensures r.Some? ==> from <= r.value.1 <= |text|
  {
    CollectStays(ReaderOf(t, text), |text|, from, []);
    Collect(ReaderOf(t, text), |text|, from, [])
  }

  /** The name after the opening tag, and where it ends. */
  function XmlName(t: Tags, text: string, start: nat): (r: Option<(string, nat)>)
    ensures r.Some? ==> start + |t.start| <= r.value.1 <= |text|
  {
    if !StartsAt(text, start, t.start) then None
    else
      var nameStart := SkipBlanks(text, start + |t.start|);
      var nameEnd := NameEnd(text, nameStart);
      var name := Trim(text[nameStart..nameEnd]);
      if NameOk(name) then Some((name, nameEnd)) else None
  }

  function CallWith(x: Library, name: string, found: Option<(Pairs, nat)>): Option<Call> {
    if found.None? || found.value.0 == [] || ByteLen(x.render(found.value.0)) > MAX_ARGUMENT_BYTES then None
    else Some(Call(name, x.render(found.value.0), found.value.1))
  }

  function XmlCall(x: Library, t: Tags, text: string, start: nat): (r: Option<Call>)
    ensures r.Some? ==> start < r.value.end <= |text|
  {
    var name := XmlName(t, text, start);
    if name.None? then None else CallWith(x, name.value.0, ArgumentsFrom(t, text, name.value.1))
  }

  method SkipAsciiWhitespace(text: string, from: nat) returns (at: nat)
    requires from <= |text|
    ensures at == SkipBlanks(text, from)
  {
    at := from;
    while at < |text| && IsAsciiBlank(text[at])
      invariant from <= at <= |text| && SkipBlanks(text, at) == SkipBlanks(text, from)
    {
      at := at + 1;
    }
  }

  /** One argument of the loop in `ParseXmlCall`. */
  method ParseArgument(t: Tags, text: string, from: nat, seen: Pairs, ghost read: Reader) returns (r: Argument)
    requires from <= |text| && Reads(read, t, text)
    ensures r == read(from, seen)
    ensures r.Last? ==> from <= r.at <= |text|
    ensures r.Next? ==> from < r.at <= |text|
  {
    assert ArgumentAt(t, text, from, seen) == read(from, seen);
    var position := SkipAsciiWhitespace(text, from);
    if StartsAt(text, position, t.end) {
      return Last(position + |t.end|);
    }
    if !StartsAt(text, position, t.keyStart) {
      return Last(position);
    }
    var key := Element(text, position, t.keyStart, t.keyEnd);
    if key.None? || Trim(key.value.0) == "" || HasKey(seen, Trim(key.value.0)) {
      return Malformed;
    }
    position := SkipAsciiWhitespace(text, key.value.1);
    var value := Element(text, position, t.valueStart, t.valueEnd);
    if value.None? {
      return Malformed;
    }
    var size := Utf8Length(value.value.0);
    if size > MAX_ARGUMENT_BYTES {
      return Malformed;
    }
    r := Next(Trim(key.value.0), value.value.0, value.value.1);
  }

  method ParseXmlName(t: Tags, text: string, start: nat) returns (r: Option<(string, nat)>)
    ensures r == XmlName(t, text, start)
  {
    if !StartsAt(text, start, t.start) {
      return None;
    }
    var position := SkipAsciiWhitespace(text, start + |t.start|);
    var nameStart := position;
    while position < |text| && !EndsName(text[position])
      invariant nameStart <= position <= |text| && NameEnd(text, position) == NameEnd(text, nameStart)
    {
      position := position + 1;
    }
    var name := Trim(text[nameStart..position]);
    var size := Utf8Length(name);
    r := if name == "" || size > MAX_NAME_BYTES then None else Some((name, position));
  }

  /** The argument loop. */
  method CollectArguments(t: Tags, text: string, from: nat, ghost read: Reader) returns (r: Option<(Pairs, nat)>)
    requires from <= |text| && Reads(read, t, text)
    ensures r == Collect(read, |text|, from, [])
  {
    var position := from;
    var arguments: Pairs := [];
    while true
      invariant position <= |text| && Collect(read, |text|, position, arguments) == Collect(read, |text|, from, [])
      decreases |text| - position
    {
      var argument := ParseArgument(t, text, position, arguments, read);
      match argument {
        case Malformed => return None;
        case Last(at) => return Some((arguments, at));
        case Next(key, value, at) =>
          arguments := arguments + [(key, value)];
          position := at;
      }
    }
  }

  method ParseArguments(t: Tags, text: string, from: nat) returns (r: Option<(Pairs, nat)>)
    requires from <= |text|
    ensures r == ArgumentsFrom(t, text, from)
  {
    r := CollectArguments(t, text, from, ReaderOf(t, text));
  }

  method ParseXmlCall(x: Library, t: Tags, text: string, start: nat) returns (r: Option<Call>)
    ensures r == XmlCall(x, t, text, start)
  {
    var name := ParseXmlName(t, text, start);
    if name.None? {
      return None;
    }
    var found := ParseArguments(t, text, name.value.1);
    if found.None? || found.value.0 == [] {
      return None;
    }
    var printed := x.render(found.value.0);
    var size := Utf8Length(printed);
    if size > MAX_ARGUMENT_BYTES {
      return None;
    }
    r := Some(Call(name.value.0, printed, found.value.1));
  }

  // ---- the whole response --------------------------------------------------

  datatype Content = Prose(text: string) | ToolCall(id: string, name: string, arguments: string)

  datatype ParseError = TooLong | OutsideRequest | MoreThanOne

  ghost function CallAt(x: Library, text: string, i: nat): (r: Option<Call>)
    ensures r.Some? ==> i < r.value.end <= |text|
  {
    if i >= |text| then None
    else if text[i] == '{' then JsonCall(x, text, i)
    else if text[i] == '<' then XmlCall(x, TAGS, text, i)
    else None
  }

  /** Where calls start in a text. */
  type Calls = nat -> Option<Call>

  ghost function CallsOf(x: Library, text: string): Calls { (i: nat) => CallAt(x, text, i) }

  /** `at` tells where calls start in this text. */
  ghost predicate Mirrors(at: Calls, x: Library, text: string) {
    forall i: nat {:trigger CallAt(x, text, i)} :: CallAt(x, text, i) == at(i)
  }

  ghost predicate Inside(at: Calls, n: nat) {
    forall i: nat :: at(i).Some? ==> i < at(i).value.end <= n
  }

  /** The first call at or after `from`, with its position. */
  ghost function NextCall(at: Calls, n: nat, from: nat): (r: Option<(nat, Call)>)
    requires Inside(at, n)
    ensures r.Some? ==> from <= r.value.0 < r.value.1.end <= n
    decreases n - from
  {
    if from >= n then None
    else if at(from).Some? then Some((from, at(from).value))
    else NextCall(at, n, from + 1)
  }

  lemma {:induction false} NextCallIsFirst(at: Calls, n: nat, from: nat)
    requires Inside(at, n)
    ensures var r := NextCall(at, n, from);
            && (r.Some? ==> at(r.value.0) == Some(r.value.1))
            && (forall i | from <= i < if r.Some? then r.value.0 else n :: at(i) == None)
    decreases n - from
  {
    if from < n && at(from).None? {
      NextCallIsFirst(at, n, from + 1);
    }
  }

  function Piece(s: string): seq<Content> {
    var t := TrimEnd(s);
    if t == "" then [] else [Prose(t)]
  }

  function CallId(prefix: string): string { prefix + "_0" }

  /** The one call of the text with the prose around it. */
  ghost function Extracted(at: Calls, text: string, admitted: seq<string>, prefix: string): Result<Option<seq<Content>>, ParseError>
    requires Inside(at, |text|)
  {
    var first := NextCall(at, |text|, 0);
    if first.None? then Ok(None)
    else
      var (p, call) := first.value;
      var second := NextCall(at, |text|, call.end);
      if call.name !in admitted || (second.Some? && second.value.1.name !in admitted) then Err(OutsideRequest)
      else if second.Some? then Err(MoreThanOne)
      else Ok(Some(Piece(text[..p]) + [ToolCall(CallId(prefix), call.name, call.arguments)] + Piece(text[call.end..])))
  }

  ghost function Parsed(x: Library, text: string, admitted: seq<string>, prefix: string): Result<Option<seq<Content>>, ParseError> {
    if ByteLen(text) > MAX_TEXT_BYTES then Err(TooLong)
    else if admitted == [] then Ok(None)
    else Extracted(CallsOf(x, text), text, admitted, prefix)
  }

  method ParseCallAt(x: Library, text: string, i: nat, ghost at: Calls) returns (r: Option<Call>)
    requires i < |text| && Mirrors(at, x, text)
    ensures r == at(i)
  {
    assert CallAt(x, text, i) == at(i);
    if text[i] == '{' {
      r := ParseJsonCall(x, text, i);
    } else if text[i] == '<' {
      r := ParseXmlCall(x, TAGS, text, i);
    } else {
      r := None;
    }
  }

  method PushProse(out: seq<Content>, s: string) returns (pushed: seq<Content>)
    ensures pushed == out + Piece(s)
  {
    pushed := out;
    var prose := TrimEnd(s);
    if prose != "" {
      pushed := pushed + [Prose(prose)];
    }
  }

  /** The search loop. */
  method ExtractCall(x: Library, text: string, admitted: seq<string>, prefix: string, ghost at: Calls)
    returns (r: Result<Option<seq<Content>>, ParseError>)
    requires Mirrors(at, x, text) && Inside(at, |text|)
    ensures r == Extracted(at, text, admitted, prefix)
  {
    var out: seq<Content> := [];
    var found := false;
    var cursor := 0;
    var search := 0;
    ghost var first := NextCall(at, |text|, 0);
    while search < |text|
      invariant cursor <= search <= |text|
      invariant !found ==> out == [] && cursor == 0 && NextCall(at, |text|, search) == first
      invariant found ==> && first.Some? && first.value.1.name in admitted && cursor == first.value.1.end
                          && NextCall(at, |text|, search) == NextCall(at, |text|, cursor)
                          && out == Piece(text[..first.value.0])
                                    + [ToolCall(CallId(prefix), first.value.1.name, first.value.1.arguments)]
      decreases |text| - search
    {
      var parsed := ParseCallAt(x, text, search, at);
      if parsed.Some? {
        var call := parsed.value;
        if call.name !in admitted {
          return Err(OutsideRequest);
        }
        if found {
          return Err(MoreThanOne);
        }
        assert text[..search] == text[cursor..search];
        out := PushProse(out, text[cursor..search]);
        out := out + [ToolCall(CallId(prefix), call.name, call.arguments)];
        found := true;
        cursor := call.end;
        search := call.end;
      } else {
        search := search + 1;
      }
    }
    if !found {
      return Ok(None);
    }
    out := PushProse(out, text[cursor..]);
    r := Ok(Some(out));
  }

  method ParseAdmittedCalls(x: Library, text: string, admitted: seq<string>, prefix: string)
    returns (r: Result<Option<seq<Content>>, ParseError>)
    ensures r == Parsed(x, text, admitted, prefix)
  {
    var bytes := Utf8Length(text);
    if bytes > MAX_TEXT_BYTES {
      return Err(TooLong);
    }
    if admitted == [] {
      return Ok(None);
    }
    r := ExtractCall(x, text, admitted, prefix, CallsOf(x, text));
  }

  // ---- what an accepted response is ----------------------------------------

  function ProseOf(pieces: seq<Content>): string {
    if pieces == [] then "" else (if pieces[0].Prose? then pieces[0].text else "") + ProseOf(pieces[1..])
  }

  /** `pieces` is `text` with the call that spans `p..call.end` taken out as piece `k`. */
  ghost predicate HoldsOneCall(pieces: seq<Content>, text: string, p: nat, call: Call, id: string, k: nat) {
    && p <= call.end <= |text| && k < |pieces|
    && pieces[k] == ToolCall(id, call.name, call.arguments)
    && (forall j | 0 <= j < |pieces| && j != k :: pieces[j].Prose?)
    && KeepsProse(pieces[..k], text[..p])
    && KeepsProse(pieces[k + 1..], text[call.end..])
  }

  /** The prose is the text but for white space at its end. */
  ghost predicate KeepsProse(pieces: seq<Content>, text: string) {
    ProseOf(pieces) <= text && AllBlank(text[|ProseOf(pieces)|..])
  }

  /** An accepted response holds exactly one call, of an admitted name; outside its span no
      call starts anywhere in the text; the prose on either side is kept but for white
      space at its end. */
  lemma {:induction false} AcceptedHasOneCall(x: Library, text: string, admitted: seq<string>, prefix: string) returns (p: nat, call: Call, k: nat)
    requires var r := Parsed(x, text, admitted, prefix); r.Ok? && r.value.Some?
    ensures HoldsOneCall(Parsed(x, text, admitted, prefix).value.value, text, p, call, CallId(prefix), k)
    ensures CallAt(x, text, p) == Some(call) && call.name in admitted
    ensures forall i | 0 <= i < |text| && (i < p || call.end <= i) :: CallAt(x, text, i) == None
  {
    var at := CallsOf(x, text);
    assert forall i: nat :: CallAt(x, text, i) == at(i);
    p, call, k := ExtractedHasOneCall(at, text, admitted, prefix);
  }

  lemma ExtractedHasOneCall(at: Calls, text: string, admitted: seq<string>, prefix: string) returns (p: nat, call: Call, k: nat)
    requires Inside(at, |text|)
    requires var r := Extracted(at, text, admitted, prefix); r.Ok? && r.value.Some?
    ensures HoldsOneCall(Extracted(at, text, admitted, prefix).value.value, text, p, call, CallId(prefix), k)
    ensures at(p) == Some(call) && call.name in admitted
    ensures forall i | 0 <= i < |text| && (i < p || call.end <= i) :: at(i) == None
  {
    var first := NextCall(at, |text|, 0);
    p, call := first.value.0, first.value.1;
    NextCallIsFirst(at, |text|, 0);
    NextCallIsFirst(at, |text|, call.end);
    k := |Piece(text[..p])|;
    AssembledHoldsOneCall(text, p, call, CallId(prefix));
  }

  lemma AssembledHoldsOneCall(text: string, p: nat, call: Call, id: string)
    requires p <= call.end <= |text|
    ensures HoldsOneCall(Piece(text[..p]) + [ToolCall(id, call.name, call.arguments)] + Piece(text[call.end..]),
                         text, p, call, id, |Piece(text[..p])|)
  {
    var lead := Piece(text[..p]);
    var trail := Piece(text[call.end..]);
    var pieces := lead + [ToolCall(id, call.name, call.arguments)] + trail;
    var k := |lead|;
    assert pieces[..k] == lead && pieces[k + 1..] == trail;
    PieceText(text[..p]);
    PieceText(text[call.end..]);
    forall j | 0 <= j < |pieces| && j != k ensures pieces[j].Prose? {
      assert pieces[j] == if j < k then lead[j] else trail[j - k - 1];
    }
  }

  lemma PieceText(s: string)
    ensures ProseOf(Piece(s)) == TrimEnd(s)
    ensures forall j | 0 <= j < |Piece(s)| :: Piece(s)[j].Prose?
    ensures KeepsProse(Piece(s), s)
  {
    TrimEndSpec(s);
    if TrimEnd(s) != "" {
      assert [Prose(TrimEnd(s))][1..] == [];
    }
  }
}
