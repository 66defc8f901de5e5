/** The written forms of a call in XML-ish markup: exactly those texts are read as a call. */
module XmlForms {
  import opened Common
  import opened Text
  import opened TextCalls
  import opened CallRoundTrips

  // ---- what the helpers found ----------------------------------------------

  lemma {:induction false} SkippedIsGap(text: string, at: nat)
    requires at <= |text|
    ensures var p := SkipBlanks(text, at); Gap(text[at..p]) && (p == |text| || !IsGap(text[p]))
    decreases |text| - at
  {
    if at < |text| && IsAsciiBlank(text[at]) {
      SkippedIsGap(text, at + 1);
      var p := SkipBlanks(text, at + 1);
      assert text[at..p] == [text[at]] + text[at + 1..p];
    }
  }

  lemma {:induction false} FoundIsFirst(text: string, pattern: string, from: nat)
    requires Find(text, pattern, from).Some?
    ensures var r := Find(text, pattern, from).value;
            StartsAt(text, r, pattern) && forall i | from <= i < r :: !StartsAt(text, i, pattern)
    decreases |text| + 1 - from
  {
    if from <= |text| && !StartsAt(text, from, pattern) {
      FoundIsFirst(text, pattern, from + 1);
    }
  }

  lemma {:induction false} NameIsWord(text: string, at: nat)
    requires at <= |text|
    ensures var p := NameEnd(text, at); forall i | at <= i < p :: !EndsName(text[i])
    decreases |text| - at
  {
    if at < |text| && !EndsName(text[at]) {
      NameIsWord(text, at + 1);
    }
  }

  lemma StartsAtJoin(text: string, at: nat, a: string, b: string)
    requires StartsAt(text, at, a) && StartsAt(text, at + |a|, b)
    ensures StartsAt(text, at, a + b)
  {
    assert text[at..at + |a + b|] == text[at..at + |a|] + text[at + |a|..at + |a| + |b|];
  }

  lemma SliceStarts(text: string, i: nat, j: nat)
    requires i <= j <= |text|
    ensures StartsAt(text, i, text[i..j])
  {
  }

  /** A tag inside the body would have been found first. */
  lemma BodyLacks(text: string, from: nat, end: nat, close: string)
    requires from <= end <= |text| && close != "" && forall i | from <= i < end :: !StartsAt(text, i, close)
    ensures Lacks(text[from..end], close)
  {
    var body := text[from..end];
    forall i: nat ensures !StartsAt(body, i, close) {
      if i + |close| <= |body| && body[i..i + |close|] == close {
        forall k | 0 <= k < |close| ensures text[from + i + k] == close[k] {
          CharAt(body, i, close, k);
        }
        SpelledOut(text, from + i, close);
      }
    }
  }

  lemma ElementRead(text: string, at: nat, open: string, close: string)
    requires Element(text, at, open, close).Some? && close != ""
    ensures var (body, end) := Element(text, at, open, close).value;
            && StartsAt(text, at, open + body + close) && end == at + |open + body + close| && Lacks(body, close)
  {
    var from := at + |open|;
    FoundIsFirst(text, close, from);
    var end := Find(text, close, from).value;
    BodyLacks(text, from, end, close);
    SliceStarts(text, from, end);
    StartsAtJoin(text, at, open, text[from..end]);
    StartsAtJoin(text, at, open + text[from..end], close);
  }

  /** What is trimmed off a key stands around it. */
  lemma KeySplits(body: string) returns (left: string, right: string)
    ensures AllBlank(left) && AllBlank(right) && Trimmed(Trim(body)) && body == left + Trim(body) + right
  {
    var start := TrimStart(body);
    var key := TrimEnd(start);
    TrimStartSpec(body);
    TrimEndSpec(start);
    TrimIsTrimmed(body);
    left, right := body[..|body| - |start|], start[|key|..];
    SplitThree(body, left, start, key, right);
  }

  lemma SplitThree(body: string, left: string, start: string, key: string, right: string)
    requires body == left + start && start == key + right
    ensures body == left + key + right
  {
  }

  // ---- arguments -----------------------------------------------------------

  /** An argument that was read is written there. */
  lemma ArgumentRead(t: Tags, text: string, from: nat, seen: Pairs) returns (a: Spelled)
    requires TagsOk(t) && from <= |text| && ArgumentAt(t, text, from, seen).Next?
    ensures var r := ArgumentAt(t, text, from, seen);
            && SpelledOk(t, a) && a.Pair() == (r.key, r.value) && !HasKey(seen, a.key)
            && StartsAt(text, from, PrintArgument(t, a)) && r.at == from + |PrintArgument(t, a)|
  {
    var p := SkipBlanks(text, from);
    var key := Element(text, p, t.keyStart, t.keyEnd).value;
    var q := SkipBlanks(text, key.1);
    var value := Element(text, q, t.valueStart, t.valueEnd).value;
    var left, right := KeySplits(key.0);
    a := Spelled(text[from..p], left, Trim(key.0), right, text[key.1..q], value.0);
    SkippedIsGap(text, from);
    SkippedIsGap(text, key.1);
    ElementRead(text, p, t.keyStart, t.keyEnd);
    ElementRead(text, q, t.valueStart, t.valueEnd);
    ArgumentJoined(t, text, from, p, key.1, q, value.1, a);
  }

  lemma ArgumentJoined(t: Tags, text: string, from: nat, p: nat, m: nat, q: nat, end: nat, a: Spelled)
    requires from <= p <= m <= q <= |text| && a.before == text[from..p] && a.between == text[m..q]
    requires StartsAt(text, p, PrintKey(t, a)) && m == p + |PrintKey(t, a)|
    requires StartsAt(text, q, PrintValue(t, a)) && end == q + |PrintValue(t, a)|
    ensures StartsAt(text, from, PrintArgument(t, a)) && end == from + |PrintArgument(t, a)|
  {
    SliceStarts(text, from, p);
    SliceStarts(text, m, q);
    StartsAtJoin(text, m, a.between, PrintValue(t, a));
    StartsAtJoin(text, p, PrintKey(t, a), a.between + PrintValue(t, a));
    StartsAtJoin(text, from, a.before, PrintKey(t, a) + (a.between + PrintValue(t, a)));
  }

  lemma EndRead(t: Tags, text: string, from: nat, seen: Pairs) returns (trail: string, closing: string)
    requires from <= |text| && ArgumentAt(t, text, from, seen).Last?
    ensures var end := ArgumentAt(t, text, from, seen).at;
            && IsTail(t, text, trail + closing, trail, closing, end)
            && StartsAt(text, from, trail + closing) && end == from + |trail + closing|
  {
    var p := SkipBlanks(text, from);
    SkippedIsGap(text, from);
    trail := text[from..p];
    closing := if StartsAt(text, p, t.end) then t.end else "";
    SliceStarts(text, from, p);
    StartsAtJoin(text, from, trail, closing);
  }

  lemma NextRead(t: Tags, text: string, from: nat, seen: Pairs, read: Reader) returns (a: Spelled)
    requires TagsOk(t) && Reads(read, t, text) && from <= |text| && read(from, seen).Next?
    ensures var r := read(from, seen);
            && SpelledOk(t, a) && a.Pair() == (r.key, r.value) && !HasKey(seen, a.key)
            && StartsAt(text, from, PrintArgument(t, a)) && r.at == from + |PrintArgument(t, a)|
  {
    assert ArgumentAt(t, text, from, seen) == read(from, seen);
    a := ArgumentRead(t, text, from, seen);
  }

  /** The arguments that were collected are written there, one after the other. */
  ghost predicate WrittenFrom(t: Tags, text: string, read: Reader, from: nat, done: seq<Spelled>, xs: seq<Spelled>, ps: Pairs, end: nat) {
    && AllSpelledOk(t, done + xs) && ps == PairsOf(done + xs)
    && StartsAt(text, from, PrintArguments(t, xs))
    && read(from + |PrintArguments(t, xs)|, ps) == Last(end)
  }

  lemma CollectSteps(read: Reader, n: nat, from: nat, seen: Pairs)
    requires Collect(read, n, from, seen).Some?
    ensures read(from, seen).Last? ==> Collect(read, n, from, seen) == Some((seen, read(from, seen).at))
    ensures !read(from, seen).Last? ==>
              var r := read(from, seen);
              r.Next? && from < r.at <= n && Collect(read, n, from, seen) == Collect(read, n, r.at, seen + [(r.key, r.value)])
  {
  }

  lemma NothingWritten(t: Tags, text: string, read: Reader, from: nat, done: seq<Spelled>, end: nat)
    requires from <= |text| && AllSpelledOk(t, done) && read(from, PairsOf(done)) == Last(end)
    ensures WrittenFrom(t, text, read, from, done, [], PairsOf(done), end)
  {
    assert done + [] == done;
  }

  lemma {:induction false} CollectedAreWritten(t: Tags, text: string, from: nat, done: seq<Spelled>, ps: Pairs, end: nat, read: Reader) returns (xs: seq<Spelled>)
    requires TagsOk(t) && Reads(read, t, text) && from <= |text| && AllSpelledOk(t, done)
    requires Collect(read, |text|, from, PairsOf(done)) == Some((ps, end))
    ensures WrittenFrom(t, text, read, from, done, xs, ps, end)
    decreases |text| - from
  {
    var seen := PairsOf(done);
    var r := read(from, seen);
    CollectSteps(read, |text|, from, seen);
    if r.Last? {
      xs := [];
      NothingWritten(t, text, read, from, done, end);
    } else {
      var a := NextRead(t, text, from, seen, read);
      DoneNext(t, done, a);
      var rest := CollectedAreWritten(t, text, r.at, done + [a], ps, end, read);
      xs := [a] + rest;
      WrittenNext(t, text, read, from, done, a, rest, ps, end);
    }
  }

  lemma DoneNext(t: Tags, done: seq<Spelled>, a: Spelled)
    requires AllSpelledOk(t, done) && SpelledOk(t, a) && !HasKey(PairsOf(done), a.key)
    ensures AllSpelledOk(t, done + [a]) && PairsOf(done + [a]) == PairsOf(done) + [a.Pair()]
  {
    var grown := done + [a];
    forall i, j | 0 <= i < j < |grown| ensures grown[i].key != grown[j].key {
      if j == |done| {
        assert PairsOf(done)[i].0 == grown[i].key;
      }
    }
  }

  lemma WrittenNext(t: Tags, text: string, read: Reader, from: nat, done: seq<Spelled>, a: Spelled, rest: seq<Spelled>, ps: Pairs, end: nat)
    requires StartsAt(text, from, PrintArgument(t, a))
    requires WrittenFrom(t, text, read, from + |PrintArgument(t, a)|, done + [a], rest, ps, end)
    ensures WrittenFrom(t, text, read, from, done, [a] + rest, ps, end)
  {
    var xs := [a] + rest;
    assert done + [a] + rest == done + xs;
    assert xs[0] == a && xs[1..] == rest;
    StartsAtJoin(text, from, PrintArgument(t, a), PrintArguments(t, rest));
  }

  // ---- the call ------------------------------------------------------------

  /** `text` holds this call at `at`: its name, at least one argument, no key twice, and
      blanks only where they may be. */
  ghost predicate WrittenAt(t: Tags, text: string, at: nat, lead: string, name: string, xs: seq<Spelled>, trail: string, closing: string) {
    var printed := PrintXml(t, lead, name, xs, trail, closing);
    && Gap(lead) && Gap(trail) && name != "" && ByteLen(name) <= 256 && (forall i | 0 <= i < |name| :: !EndsName(name[i]))
    && xs != [] && AllSpelledOk(t, xs)
    && StartsAt(text, at, printed)
    && (closing == t.end || (closing == "" && StopsAt(t, text, at + |printed|)))
  }

  /** The opening tag, blanks and this name stand at `at` and end at `p`. */
  predicate Named(t: Tags, text: string, at: nat, lead: string, name: string, p: nat) {
    && Gap(lead) && name != "" && ByteLen(name) <= 256 && (forall i | 0 <= i < |name| :: !EndsName(name[i]))
    && StartsAt(text, at, t.start + (lead + name)) && p == at + |t.start + (lead + name)|
  }

  lemma NamePieces(t: Tags, text: string, at: nat, name: string, p: nat) returns (q: nat)
    requires XmlName(t, text, at) == Some((name, p))
    ensures StartsAt(text, at, t.start) && at + |t.start| <= q <= p <= |text| && q == SkipBlanks(text, at + |t.start|)
    ensures name == text[q..p] != "" && ByteLen(name) <= 256 && forall i | 0 <= i < |name| :: !EndsName(name[i])
  {
    q := SkipBlanks(text, at + |t.start|);
    NameIsWord(text, q);
    WordIsTrimmed(text[q..p]);
  }

  lemma NameRead(t: Tags, text: string, at: nat, name: string, p: nat) returns (lead: string)
    requires XmlName(t, text, at) == Some((name, p))
    ensures Named(t, text, at, lead, name, p)
  {
    var q := NamePieces(t, text, at, name, p);
    lead := text[at + |t.start|..q];
    SkippedIsGap(text, at + |t.start|);
    NameJoined(t, text, at, at + |t.start|, q, p, lead, name);
  }

  lemma NameJoined(t: Tags, text: string, at: nat, m: nat, q: nat, p: nat, lead: string, name: string)
    requires StartsAt(text, at, t.start) && m == at + |t.start| && m <= q <= p <= |text| && lead == text[m..q] && name == text[q..p]
    ensures StartsAt(text, at, t.start + (lead + name)) && p == at + |t.start + (lead + name)|
  {
    SliceStarts(text, m, q);
    SliceStarts(text, q, p);
    StartsAtJoin(text, m, lead, name);
    StartsAtJoin(text, at, t.start, lead + name);
  }

  lemma WordIsTrimmed(word: string)
    requires forall i | 0 <= i < |word| :: !EndsName(word[i])
    ensures Trim(word) == word
  {
    assert word != "" ==> !EndsName(word[0]) && !EndsName(word[|word| - 1]);
    TrimSpec(word);
  }

  lemma WrittenAll(t: Tags, text: string, read: Reader, p: nat, xs: seq<Spelled>, ps: Pairs, end: nat)
    requires WrittenFrom(t, text, read, p, [], xs, ps, end)
    ensures AllSpelledOk(t, xs) && ps == PairsOf(xs) && StartsAt(text, p, PrintArguments(t, xs))
    ensures read(p + |PrintArguments(t, xs)|, ps) == Last(end)
  {
    assert [] + xs == xs;
  }

  lemma ArgumentsRead(t: Tags, text: string, p: nat, ps: Pairs, end: nat, read: Reader) returns (xs: seq<Spelled>, trail: string, closing: string)
    requires TagsOk(t) && p <= |text| && Reads(read, t, text) && Collect(read, |text|, p, []) == Some((ps, end))
    ensures AllSpelledOk(t, xs) && ps == PairsOf(xs) && StartsAt(text, p, PrintArguments(t, xs))
    ensures var q := p + |PrintArguments(t, xs)|;
            StartsAt(text, q, trail + closing) && end == q + |trail + closing| && IsTail(t, text, trail + closing, trail, closing, end)
  {
    assert PairsOf([]) == [];
    xs := CollectedAreWritten(t, text, p, [], ps, end, read);
    WrittenAll(t, text, read, p, xs, ps, end);
    trail, closing := LastRead(t, text, p + |PrintArguments(t, xs)|, ps, read);
  }

  lemma LastRead(t: Tags, text: string, q: nat, ps: Pairs, read: Reader) returns (trail: string, closing: string)
    requires Reads(read, t, text) && q <= |text| && read(q, ps).Last?
    ensures var end := read(q, ps).at;
            StartsAt(text, q, trail + closing) && end == q + |trail + closing| && IsTail(t, text, trail + closing, trail, closing, end)
  {
    assert ArgumentAt(t, text, q, ps) == read(q, ps);
    trail, closing := EndRead(t, text, q, ps);
  }

  /** The call is written there with these spellings. */
  ghost predicate FormOf(x: Library, t: Tags, text: string, at: nat, call: Call, lead: string, xs: seq<Spelled>, trail: string, closing: string) {
    && WrittenAt(t, text, at, lead, call.name, xs, trail, closing)
    && call.arguments == x.render(PairsOf(xs)) && ByteLen(call.arguments) <= 4194304
    && call.end == at + |PrintXml(t, lead, call.name, xs, trail, closing)|
  }

  lemma PartsOfCall(x: Library, t: Tags, text: string, at: nat, call: Call) returns (p: nat, ps: Pairs)
    requires XmlCall(x, t, text, at) == Some(call)
    ensures XmlName(t, text, at) == Some((call.name, p)) && p <= |text| && Collect(ReaderOf(t, text), |text|, p, []) == Some((ps, call.end))
    ensures ps != [] && call.arguments == x.render(ps) && ByteLen(call.arguments) <= MAX_ARGUMENT_BYTES
  {
    p := XmlName(t, text, at).value.1;
    ps := ArgumentsFrom(t, text, p).value.0;
  }

  lemma CallRead(x: Library, t: Tags, text: string, at: nat, call: Call) returns (lead: string, xs: seq<Spelled>, trail: string, closing: string)
    requires TagsOk(t) && XmlCall(x, t, text, at) == Some(call)
    ensures FormOf(x, t, text, at, call, lead, xs, trail, closing)
  {
    var p, ps := PartsOfCall(x, t, text, at, call);
    lead := NameRead(t, text, at, call.name, p);
    ReaderReads(t, text);
    xs, trail, closing := ArgumentsRead(t, text, p, ps, call.end, ReaderOf(t, text));
    CallFormed(x, t, text, at, call, lead, p, xs, trail, closing);
  }

  lemma CallFormed(x: Library, t: Tags, text: string, at: nat, call: Call, lead: string, p: nat, xs: seq<Spelled>, trail: string, closing: string)
    requires Named(t, text, at, lead, call.name, p)
    requires xs != [] && AllSpelledOk(t, xs) && call.arguments == x.render(PairsOf(xs)) && ByteLen(call.arguments) <= MAX_ARGUMENT_BYTES
    requires StartsAt(text, p, PrintArguments(t, xs)) && StartsAt(text, p + |PrintArguments(t, xs)|, trail + closing)
    requires call.end == p + |PrintArguments(t, xs)| + |trail + closing| && IsTail(t, text, trail + closing, trail, closing, call.end)
    ensures FormOf(x, t, text, at, call, lead, xs, trail, closing)
  {
    CallJoined(t, text, at, lead, call.name, p, xs, p + |PrintArguments(t, xs)|, trail, closing);
  }

  lemma CallJoined(t: Tags, text: string, at: nat, lead: string, name: string, p: nat, xs: seq<Spelled>, q: nat, trail: string, closing: string)
    requires StartsAt(text, at, t.start + (lead + name)) && p == at + |t.start + (lead + name)|
    requires StartsAt(text, p, PrintArguments(t, xs)) && q == p + |PrintArguments(t, xs)|
    requires StartsAt(text, q, trail + closing)
    ensures StartsAt(text, at, PrintXml(t, lead, name, xs, trail, closing))
    ensures at + |PrintXml(t, lead, name, xs, trail, closing)| == q + |trail + closing|
  {
    StartsAtJoin(text, p, PrintArguments(t, xs), trail + closing);
    StartsAtJoin(text, at, t.start + (lead + name), PrintArguments(t, xs) + (trail + closing));
  }

  lemma FormIsCall(x: Library, t: Tags, text: string, at: nat, call: Call, lead: string, xs: seq<Spelled>, trail: string, closing: string)
    requires TagsOk(t) && FormOf(x, t, text, at, call, lead, xs, trail, closing)
    ensures XmlCall(x, t, text, at) == Some(call)
  {
    PrintedXmlIsACall(x, t, text, at, lead, call.name, xs, trail, closing, call.end);
  }

  /** The text at `at` is read as a call if and only if that call is written there. */
  lemma XmlCallIff(x: Library, t: Tags, text: string, at: nat, call: Call)
    requires TagsOk(t)
    ensures XmlCall(x, t, text, at) == Some(call)
            <==> exists lead, xs, trail, closing :: FormOf(x, t, text, at, call, lead, xs, trail, closing)
  {
    if XmlCall(x, t, text, at) == Some(call) {
      var lead, xs, trail, closing := CallRead(x, t, text, at, call);
    }
    if lead, xs, trail, closing :| FormOf(x, t, text, at, call, lead, xs, trail, closing) {
      FormIsCall(x, t, text, at, call, lead, xs, trail, closing);
    }
  }
}
