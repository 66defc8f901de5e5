/** JSON text as RFC 8259 prints it, and the scanner that finds where a JSON object
ends inside arbitrary text. */
module Json {
  import opened Common

  // ---- the scanner ---------------------------------------------------------

  datatype Scan = Scan(depth: int, inString: bool, escape: bool)

  function Level(d: int): Scan { Scan(d, false, false) }

  function Step(s: Scan, c: char): Scan {
    if s.inString then
      if s.escape then s.(escape := false)
      else if c == '\\' then s.(escape := true)
      else if c == '"' then s.(inString := false)
      else s
    else if c == '"' then s.(inString := true)
    else if c == '{' || c == '[' then s.(depth := s.depth + 1)
    else if c == '}' || c == ']' then s.(depth := s.depth - 1)
    else s
  }

  function Run(s: Scan, text: string): Scan
    decreases |text|
  {
    if text == [] then s else Run(Step(s, text[0]), text[1..])
  }

  /** All brackets closed, outside any string. */
  predicate Balanced(text: string) { Run(Level(0), text) == Level(0) }

  /** `text[start..end]` is the least balanced non-empty prefix and ends in a brace. */
  ghost predicate ObjectSpan(text: string, start: nat, end: nat) {
    && start < end <= |text| && text[start] == '{' && text[end - 1] == '}'
    && Balanced(text[start..end])
    && forall k | start < k < end :: !Balanced(text[start..k])
  }

  lemma {:induction false} RunAppend(s: Scan, a: string, b: string)
    ensures Run(s, a + b) == Run(Run(s, a), b)
    decreases |a|
  {
    if a == [] {
      assert a + b == b;
    } else {
      assert (a + b)[0] == a[0] && (a + b)[1..] == a[1..] + b;
      RunAppend(Step(s, a[0]), a[1..], b);
    }
  }

  ghost function Places(text: string, cs: string): set<nat> { set i: nat | i < |text| && text[i] in cs }

  /** Outside strings every bracket counts, whichever it is. */
  lemma {:induction false} DepthCounts(text: string, d: int)
    requires forall i | 0 <= i < |text| :: text[i] != '"'
    ensures Run(Level(d), text) == Level(d + |Places(text, "{[")| - |Places(text, "}]")|)
    decreases |text|
  {
    if text == "" {
      assert Places(text, "{[") == {} && Places(text, "}]") == {};
    } else {
      var front, c := text[..|text| - 1], text[|text| - 1];
      assert text == front + [c];
      DepthCounts(front, d);
      RunAppend(Level(d), front, [c]);
      assert [c][1..] == [];
      PlacesNext(front, c, "{[");
      PlacesNext(front, c, "}]");
    }
  }

  lemma PlacesNext(front: string, c: char, cs: string)
    ensures |Places(front + [c], cs)| == |Places(front, cs)| + if c in cs then 1 else 0
  {
    var text := front + [c];
    assert Places(text, cs) == Places(front, cs) + if c in cs then {|front|} else {};
  }

  lemma RunNext(text: string, start: nat, i: nat)
    requires start <= i < |text|
    ensures Run(Level(0), text[start..i + 1]) == Step(Run(Level(0), text[start..i]), text[i])
  {
    assert text[start..i + 1] == text[start..i] + [text[i]];
    RunAppend(Level(0), text[start..i], [text[i]]);
    assert [text[i]][1..] == [];
  }

  /** Finds the object that starts at `start`, strings and escapes respected. A
      negative depth cannot occur. */
  method BalancedJsonObjectEnd(text: string, start: nat) returns (r: Option<nat>)
    ensures forall e: nat :: r == Some(e) <==> ObjectSpan(text, start, e)
  {
    if start >= |text| || text[start] != '{' {
      return None;
    }
    var depth := 0;
    var inString := false;
    var escape := false;
    var i := start;
    assert text[start..start] == [];
    while i < |text|
      invariant start <= i <= |text| && Scan(depth, inString, escape) == Run(Level(0), text[start..i])
      invariant if i == start then depth == 0 && !inString else depth >= 1
      invariant !inString ==> !escape
      invariant forall k | start < k <= i :: !Balanced(text[start..k])
    {
      var c := text[i];
      RunNext(text, start, i);
      if inString {
        if escape {
          escape := false;
        } else if c == '\\' {
          escape := true;
        } else if c == '"' {
          inString := false;
        }
      } else if c == '"' {
        inString := true;
      } else if c == '{' || c == '[' {
        depth := depth + 1;
      } else if c == '}' || c == ']' {
        depth := depth - 1;
        if depth == 0 {
          assert Balanced(text[start..i + 1]);
          return if c == '}' then Some(i + 1) else None;
        }
      }
      i := i + 1;
    }
    r := None;
  }

  // ---- printed values ------------------------------------------------------

  /** One character of a string: itself, a short escape, or four hex digits. */
  datatype Unit = Plain(c: char) | Short(c: char) | Hex(a: char, b: char, c: char, d: char) {
    predicate Wf() {
      match this
      case Plain(c) => c >= ' ' && c != '"' && c != '\\'
      case Short(c) => c in "\"\\/bfnrt"
      case Hex(a, b, c, d) => IsHex(a) && IsHex(b) && IsHex(c) && IsHex(d)
    }

    function Print(): string {
      match this
      case Plain(c) => [c]
      case Short(c) => ['\\', c]
      case Hex(a, b, c, d) => ['\\', 'u', a, b, c, d]
    }
  }

  predicate IsDigit(c: char) { '0' <= c <= '9' }

  predicate IsHex(c: char) { IsDigit(c) || 'a' <= c <= 'f' || 'A' <= c <= 'F' }

  predicate Digits(s: string) { s != [] && forall i | 0 <= i < |s| :: IsDigit(s[i]) }

  predicate Blank(s: string) { forall i | 0 <= i < |s| :: s[i] in " \t\n\r" }

  /** [minus] int [frac] [exp] */
  datatype Numeral = Numeral(minus: bool, whole: string, fraction: Option<string>, exponent: Option<Exponent>) {
    predicate Wf() {
      && Digits(whole) && (whole[0] == '0' ==> |whole| == 1)
      && (fraction.Some? ==> Digits(fraction.value))
      && (exponent.Some? ==> Digits(exponent.value.digits) && exponent.value.mark in "eE" && exponent.value.sign in ["", "+", "-"])
    }

    function Print(): string {
      (if minus then "-" else "") + whole
      + (if fraction.Some? then "." + fraction.value else "")
      + (if exponent.Some? then [exponent.value.mark] + exponent.value.sign + exponent.value.digits else "")
    }
  }

  datatype Exponent = Exponent(mark: char, sign: string, digits: string)

  datatype Value =
    | Literal(name: string)
    | Number(numeral: Numeral)
    | Str(units: seq<Unit>)
    | Arr(blank: string, items: Items)
    | Obj(blank: string, members: Members)

  /** Elements with the white space around each. */
  datatype Items = NoItem | Item(before: string, value: Value, after: string, rest: Items)

  datatype Members = NoMember
    | Member(before: string, key: seq<Unit>, beforeColon: string, afterColon: string, value: Value, after: string, rest: Members)

  predicate WfUnits(us: seq<Unit>) { forall i | 0 <= i < |us| :: us[i].Wf() }

  predicate Wf(v: Value) {
    match v
    case Literal(name) => name in ["true", "false", "null"]
    case Number(n) => n.Wf()
    case Str(us) => WfUnits(us)
    case Arr(blank, items) => Blank(blank) && WfItems(items)
    case Obj(blank, members) => Blank(blank) && WfMembers(members)
  }

  predicate WfItems(xs: Items) {
    xs.Item? ==> Blank(xs.before) && Blank(xs.after) && Wf(xs.value) && WfItems(xs.rest)
  }

  predicate WfMembers(ms: Members) {
    ms.Member? ==> && Blank(ms.before) && Blank(ms.beforeColon) && Blank(ms.afterColon) && Blank(ms.after)
                   && WfUnits(ms.key) && Wf(ms.value) && WfMembers(ms.rest)
  }

  function PrintUnits(us: seq<Unit>): string {
    if us == [] then "" else us[0].Print() + PrintUnits(us[1..])
  }

  function Quoted(us: seq<Unit>): string { "\"" + PrintUnits(us) + "\"" }

  function Print(v: Value): string {
    match v
    case Literal(name) => name
    case Number(n) => n.Print()
    case Str(us) => Quoted(us)
    case Arr(blank, items) => "[" + (blank + PrintItems(items)) + "]"
    case Obj(blank, members) => "{" + (blank + PrintMembers(members)) + "}"
  }

  function PrintItems(xs: Items): string {
    if xs.NoItem? then ""
    else xs.before + (Print(xs.value) + (xs.after + ((if xs.rest.Item? then "," else "") + PrintItems(xs.rest))))
  }

  function PrintMembers(ms: Members): string {
    if ms.NoMember? then ""
    else
      ms.before + (Quoted(ms.key) + (ms.beforeColon + (":" + (ms.afterColon + (Print(ms.value)
      + (ms.after + ((if ms.rest.Member? then "," else "") + PrintMembers(ms.rest))))))))
  }

  // ---- printing against scanning -------------------------------------------

  /** The scan never drops below `d` while it reads `text`. */
  predicate Above(s: Scan, text: string, d: int)
    decreases |text|
  {
    s.depth >= d && (text == [] || Above(Step(s, text[0]), text[1..], d))
  }

  /** Read at level `d`, the text stays at or above it and comes back to it. */
  predicate Neutral(text: string, d: int) { Above(Level(d), text, d) && Run(Level(d), text) == Level(d) }

  lemma {:induction false} AboveAppend(s: Scan, a: string, b: string, d: int)
    requires Above(s, a, d) && Above(Run(s, a), b, d)
    ensures Above(s, a + b, d)
    decreases |a|
  {
    if a == [] {
      assert a + b == b;
    } else {
      assert (a + b)[0] == a[0] && (a + b)[1..] == a[1..] + b;
      AboveAppend(Step(s, a[0]), a[1..], b, d);
    }
  }

  lemma {:induction false} AbovePrefix(s: Scan, text: string, d: int, k: nat)
    requires Above(s, text, d) && k <= |text|
    ensures Run(s, text[..k]).depth >= d
    decreases k
  {
    if k > 0 {
      assert text[..k][0] == text[0] && text[..k][1..] == text[1..][..k - 1];
      AbovePrefix(Step(s, text[0]), text[1..], d, k - 1);
    }
  }

  lemma {:induction false} AboveWeaken(s: Scan, text: string, d: int, lower: int)
    requires Above(s, text, d) && lower <= d
    ensures Above(s, text, lower)
    decreases |text|
  {
    if text != [] {
      AboveWeaken(Step(s, text[0]), text[1..], d, lower);
    }
  }

  lemma NeutralAppend(a: string, b: string, d: int)
    requires Neutral(a, d) && Neutral(b, d)
    ensures Neutral(a + b, d)
  {
    RunAppend(Level(d), a, b);
    AboveAppend(Level(d), a, b, d);
  }

  predicate IsInert(c: char) { c !in "\"{}[]" }

  lemma {:induction false} InertIsNeutral(text: string, d: int)
    requires forall i | 0 <= i < |text| :: IsInert(text[i])
    ensures Neutral(text, d)
    decreases |text|
  {
    if text != [] {
      assert IsInert(text[0]);
      InertIsNeutral(text[1..], d);
    }
  }

  lemma BlankIsNeutral(text: string, d: int)
    requires Blank(text)
    ensures Neutral(text, d)
  {
    InertIsNeutral(text, d);
  }

  lemma NumeralIsNeutral(n: Numeral, d: int)
    requires n.Wf()
    ensures Neutral(n.Print(), d)
  {
    if n.exponent.Some? {
      assert forall i | 0 <= i < |n.exponent.value.sign| :: IsInert(n.exponent.value.sign[i]);
      assert forall i | 0 <= i < |n.exponent.value.digits| :: IsInert(n.exponent.value.digits[i]);
    }
    InertIsNeutral(n.Print(), d);
  }

  /** Inside a string nothing but the closing quote ends it. */
  lemma {:induction false} UnitsStayInside(us: seq<Unit>, d: int)
    requires WfUnits(us)
    ensures Run(Scan(d, true, false), PrintUnits(us)) == Scan(d, true, false)
    ensures Above(Scan(d, true, false), PrintUnits(us), d)
    decreases |us|
  {
    if us != [] {
      var inside := Scan(d, true, false);
      UnitStaysInside(us[0], d);
      UnitsStayInside(us[1..], d);
      RunAppend(inside, us[0].Print(), PrintUnits(us[1..]));
      AboveAppend(inside, us[0].Print(), PrintUnits(us[1..]), d);
    }
  }

  lemma {:induction false} PlainStaysInside(text: string, d: int)
    requires forall i | 0 <= i < |text| :: text[i] != '"' && text[i] != '\\'
    ensures Run(Scan(d, true, false), text) == Scan(d, true, false)
    ensures Above(Scan(d, true, false), text, d)
    decreases |text|
  {
    if text != [] {
      PlainStaysInside(text[1..], d);
    }
  }

  lemma UnitStaysInside(u: Unit, d: int)
    requires u.Wf()
    ensures Run(Scan(d, true, false), u.Print()) == Scan(d, true, false)
    ensures Above(Scan(d, true, false), u.Print(), d)
  {
    if u.Plain? {
      PlainStaysInside(u.Print(), d);
    } else {
      var text := u.Print();
      var escaped := text[1..];
      assert escaped[1..] == text[2..];
      PlainStaysInside(text[2..], d);
      assert Run(Scan(d, true, true), escaped) == Scan(d, true, false);
      assert Above(Scan(d, true, true), escaped, d);
    }
  }

  lemma QuotedIsNeutral(us: seq<Unit>, d: int)
    requires WfUnits(us)
    ensures Neutral(Quoted(us), d)
  {
    var body := PrintUnits(us);
    UnitsStayInside(us, d);
    RunAppend(Scan(d, true, false), body, "\"");
    AboveAppend(Scan(d, true, false), body, "\"", d);
    assert Quoted(us)[0] == '"' && Quoted(us)[1..] == body + "\"";
  }

  /** An opening and a closing bracket around neutral text. */
  lemma Bracketed(open: char, body: string, close: char, d: int)
    requires open in "{[" && close in "}]" && Neutral(body, d + 1)
    ensures Run(Level(d), [open] + body) == Level(d + 1) && Above(Level(d + 1), body, d + 1)
    ensures Neutral([open] + body + [close], d)
  {
    var text := [open] + body + [close];
    assert text[1..] == body + [close] && ([open] + body)[1..] == body;
    RunAppend(Level(d + 1), body, [close]);
    AboveWeaken(Level(d + 1), body, d + 1, d);
    assert [close][1..] == [];
    AboveAppend(Level(d + 1), body, [close], d);
  }

  lemma {:induction false} ValueIsNeutral(v: Value, d: int)
    requires Wf(v)
    ensures Neutral(Print(v), d)
    decreases v
  {
    match v
    case Literal(name) => InertIsNeutral(name, d);
    case Number(n) => NumeralIsNeutral(n, d);
    case Str(us) => QuotedIsNeutral(us, d);
    case Arr(blank, items) =>
      BlankIsNeutral(blank, d + 1);
      ItemsAreNeutral(items, d + 1);
      NeutralAppend(blank, PrintItems(items), d + 1);
      Bracketed('[', blank + PrintItems(items), ']', d);
    case Obj(blank, members) =>
      BlankIsNeutral(blank, d + 1);
      MembersAreNeutral(members, d + 1);
      NeutralAppend(blank, PrintMembers(members), d + 1);
      Bracketed('{', blank + PrintMembers(members), '}', d);
  }

  lemma {:induction false} ItemsAreNeutral(xs: Items, d: int)
    requires WfItems(xs)
    ensures Neutral(PrintItems(xs), d)
    decreases xs
  {
    if xs.Item? {
      ItemsAreNeutral(xs.rest, d);
      var comma := if xs.rest.Item? then "," else "";
      InertIsNeutral(comma, d);
      NeutralAppend(comma, PrintItems(xs.rest), d);
      BlankIsNeutral(xs.after, d);
      NeutralAppend(xs.after, comma + PrintItems(xs.rest), d);
      ValueIsNeutral(xs.value, d);
      NeutralAppend(Print(xs.value), xs.after + (comma + PrintItems(xs.rest)), d);
      BlankIsNeutral(xs.before, d);
      NeutralAppend(xs.before, Print(xs.value) + (xs.after + (comma + PrintItems(xs.rest))), d);
    }
  }

  lemma {:induction false} MembersAreNeutral(ms: Members, d: int)
    requires WfMembers(ms)
    ensures Neutral(PrintMembers(ms), d)
    decreases ms
  {
    if ms.Member? {
      MembersAreNeutral(ms.rest, d);
      var comma := if ms.rest.Member? then "," else "";
      InertIsNeutral(comma, d);
      NeutralAppend(comma, PrintMembers(ms.rest), d);
      BlankIsNeutral(ms.after, d);
      var tail := ms.after + (comma + PrintMembers(ms.rest));
      NeutralAppend(ms.after, comma + PrintMembers(ms.rest), d);
      ValueIsNeutral(ms.value, d);
      NeutralAppend(Print(ms.value), tail, d);
      MemberHeadIsNeutral(ms, Print(ms.value) + tail, d);
    }
  }

  lemma MemberHeadIsNeutral(ms: Members, tail: string, d: int)
    requires WfMembers(ms) && ms.Member? && Neutral(tail, d)
    ensures Neutral(ms.before + (Quoted(ms.key) + (ms.beforeColon + (":" + (ms.afterColon + tail)))), d)
  {
    BlankIsNeutral(ms.afterColon, d);
    NeutralAppend(ms.afterColon, tail, d);
    InertIsNeutral(":", d);
    NeutralAppend(":", ms.afterColon + tail, d);
    BlankIsNeutral(ms.beforeColon, d);
    NeutralAppend(ms.beforeColon, ":" + (ms.afterColon + tail), d);
    QuotedIsNeutral(ms.key, d);
    NeutralAppend(Quoted(ms.key), ms.beforeColon + (":" + (ms.afterColon + tail)), d);
    BlankIsNeutral(ms.before, d);
    NeutralAppend(ms.before, Quoted(ms.key) + (ms.beforeColon + (":" + (ms.afterColon + tail))), d);
  }

  /** The scanner inverts printing: a printed object, after any text and before any
      text, is exactly the span found at its first brace. */
  lemma PrintedObjectIsSpan(before: string, v: Value, after: string)
    requires Wf(v) && v.Obj?
    ensures ObjectSpan(before + Print(v) + after, |before|, |before| + |Print(v)|)
  {
    var printed := Print(v);
    var text := before + printed + after;
    var start := |before|;
    var end := start + |printed|;
    ValueIsNeutral(v, 0);
    assert text[start..end] == printed;
    var body := v.blank + PrintMembers(v.members);
    BlankIsNeutral(v.blank, 1);
    MembersAreNeutral(v.members, 1);
    NeutralAppend(v.blank, PrintMembers(v.members), 1);
    forall k | start < k < end ensures !Balanced(text[start..k]) {
      assert text[start..k] == "{" + body[..k - start - 1];
      AbovePrefix(Level(1), body, 1, k - start - 1);
      assert ("{" + body[..k - start - 1])[1..] == body[..k - start - 1];
    }
  }

  /** At most one span starts at a position. */
  lemma SpanIsUnique(text: string, start: nat, e: nat, f: nat)
    requires ObjectSpan(text, start, e) && ObjectSpan(text, start, f)
    ensures e == f
  {
  }
}
