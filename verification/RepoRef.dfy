/** Hugging Face repository references: the parser, the printer, and exactly when one
undoes the other. */
module RepoRef {
  import opened Common
  import opened Text
  import Percent

  const DEFAULT_REVISION: string := "main"

  datatype Ref = Ref(repo: string, revision: string, filename: Option<string>)

  datatype ParseError = EmptyReference | InvalidRepo | EmptyRevision | NotHuggingFace | NotResolveUrl | EmptyFilename

  // ---- helpers of the string library ---------------------------------------

  function SplitOnce(s: string, c: char): (string, Option<string>) {
    if s == "" then ("", None)
    else if s[0] == c then ("", Some(s[1..]))
    else
      var (left, right) := SplitOnce(s[1..], c);
      ([s[0]] + left, right)
  }

  /** Strips the prefix as often as it occurs. */
  function StripAll(s: string, prefix: string): string
    requires prefix != ""
  {
    if prefix <= s then StripAll(s[|prefix|..], prefix) else s
  }

  function TrimLeft(s: string, c: char): string {
    if s != "" && s[0] == c then TrimLeft(s[1..], c) else s
  }

  function TrimRight(s: string, c: char): string {
    if s != "" && s[|s| - 1] == c then TrimRight(s[..|s| - 1], c) else s
  }

  predicate Has(s: string, c: char) { exists i | 0 <= i < |s| :: s[i] == c }

  // ---- parsing and printing ------------------------------------------------

  predicate IsComponentChar(c: char) {
    'a' <= c <= 'z' || 'A' <= c <= 'Z' || '0' <= c <= '9' || c == '-' || c == '_' || c == '.'
  }

  predicate ValidComponent(s: string) { forall i | 0 <= i < |s| :: IsComponentChar(s[i]) }

  predicate ValidRepo(repo: string) {
    var parts := Percent.Split(repo, '/');
    |parts| == 2 && parts[0] != "" && parts[1] != "" && ValidComponent(parts[0]) && ValidComponent(parts[1])
  }

  /** The hosts a reference may be prefixed with. */
  datatype Hosts = Hosts(full: string, brief: string)

  const HOSTS: Hosts := Hosts("huggingface.co", "hf.co")

  function StripHosts(h: Hosts, text: string): string { StripAll(StripAll(text, h.full + "/"), h.brief + "/") }

  function ParseShort(h: Hosts, text: string): Result<Ref, ParseError> {
    var short := StripHosts(h, text);
    var (repoRevision, file) := SplitOnce(short, ':');
    var (repo, revision) := SplitOnce(repoRevision, '@');
    if !ValidRepo(repo) then Err(InvalidRepo)
    else
      var rev := Trim(if revision.Some? then revision.value else DEFAULT_REVISION);
      if rev == "" then Err(EmptyRevision)
      else Ok(Ref(repo, rev, if file.Some? && Trim(file.value) != "" then Some(Trim(file.value)) else None))
  }

  function ParseUrl(h: Hosts, text: string): Result<Ref, ParseError> {
    var rest := if "https://" <= text then text[8..] else if "http://" <= text then text[7..] else text;
    var (host, path) := SplitOnce(rest, '/');
    if TrimRight(host, '/') != h.full && TrimRight(host, '/') != h.brief then Err(NotHuggingFace)
    else
      var parts := Percent.Split(TrimRight(TrimLeft(if path.Some? then path.value else "", '/'), '/'), '/');
      if |parts| < 5 || parts[2] != "resolve" then Err(NotResolveUrl)
      else
        var repo := parts[0] + "/" + parts[1];
        if !ValidRepo(repo) then Err(InvalidRepo)
        else if parts[3] == "" then Err(EmptyRevision)
        else
          var file := Percent.Join(parts[4..], '/');
          if file == "" then Err(EmptyFilename) else Ok(Ref(repo, parts[3], Some(file)))
  }

  predicate IsUrl(text: string) { "http://" <= text || "https://" <= text }

  function Parse(h: Hosts, input: string): Result<Ref, ParseError> {
    var text := Trim(input);
    if text == "" then Err(EmptyReference) else if IsUrl(text) then ParseUrl(h, text) else ParseShort(h, text)
  }

  function Display(r: Ref): string {
    r.repo + "@" + r.revision + if r.filename.Some? then ":" + r.filename.value else ""
  }

  /** The references that survive printing and parsing. */
  ghost predicate Printable(h: Hosts, r: Ref) {
    && ValidRepo(r.repo)
    && Percent.Split(r.repo, '/')[0] != h.full && Percent.Split(r.repo, '/')[0] != h.brief
    && r.revision != "" && Trimmed(r.revision) && !Has(r.revision, ':')
    && (r.filename.Some? ==> r.filename.value != "" && Trimmed(r.filename.value))
  }

  // ---- the two ways of cutting ---------------------------------------------

  lemma {:induction false} SplitOnceAt(left: string, c: char, right: string)
    requires !Has(left, c)
    ensures SplitOnce(left + [c] + right, c) == (left, Some(right))
    decreases |left|
  {
    var s := left + [c] + right;
    if left == "" {
      assert s[1..] == right;
    } else {
      assert left[0] != c && s[1..] == left[1..] + [c] + right;
      assert forall i | 0 <= i < |left[1..]| :: left[1..][i] == left[i + 1];
      SplitOnceAt(left[1..], c, right);
      assert left == [left[0]] + left[1..];
    }
  }

  lemma {:induction false} SplitOnceWithout(s: string, c: char)
    requires !Has(s, c)
    ensures SplitOnce(s, c) == (s, None)
  {
    if s != "" {
      assert s[0] != c;
      assert forall i | 0 <= i < |s[1..]| :: s[1..][i] == s[i + 1];
      SplitOnceWithout(s[1..], c);
      assert s == [s[0]] + s[1..];
    }
  }

  /** The left part never holds the separator. */
  lemma {:induction false} SplitOnceLeft(s: string, c: char)
    ensures !Has(SplitOnce(s, c).0, c)
    ensures s == SplitOnce(s, c).0 + if SplitOnce(s, c).1.Some? then [c] + SplitOnce(s, c).1.value else ""
  {
    if s != "" && s[0] != c {
      SplitOnceLeft(s[1..], c);
      var left := SplitOnce(s[1..], c).0;
      assert forall i | 0 <= i < |[s[0]] + left| :: ([s[0]] + left)[i] == if i == 0 then s[0] else left[i - 1];
    }
  }

  lemma PrefixDiffers(prefix: string, text: string, k: nat)
    requires k < |prefix| && k < |text| && text[k] != prefix[k]
    ensures !(prefix <= text)
  {
  }

  // ---- valid repository names ----------------------------------------------

  /** Owner and name, and no character that cuts a reference. */
  lemma RepoParts(repo: string) returns (owner: string, name: string)
    requires ValidRepo(repo)
    ensures owner == Percent.Split(repo, '/')[0] && repo == owner + "/" + name
    ensures owner != "" && name != "" && ValidComponent(owner) && ValidComponent(name)
    ensures !IsWhitespace(repo[0]) && !Has(repo, '@') && !Has(repo, ':')
  {
    Percent.JoinOfSplit(repo, '/');
    var parts := Percent.Split(repo, '/');
    owner, name := parts[0], parts[1];
    JoinTwo(parts);
    RepoChars(owner, name);
  }

  lemma JoinTwo(parts: seq<string>)
    requires |parts| == 2
    ensures Percent.Join(parts, '/') == parts[0] + "/" + parts[1]
  {
    assert parts[1..] == [parts[1]];
  }

  lemma RepoChars(owner: string, name: string)
    requires owner != "" && ValidComponent(owner) && ValidComponent(name)
    ensures var repo := owner + "/" + name; !IsWhitespace(repo[0]) && !Has(repo, '@') && !Has(repo, ':')
  {
    var repo := owner + "/" + name;
    forall i | 0 <= i < |repo| ensures IsComponentChar(repo[i]) || repo[i] == '/' {
      if i < |owner| {
        assert repo[i] == owner[i];
      } else if i > |owner| {
        assert repo[i] == name[i - |owner| - 1];
      }
    }
    assert repo[0] == owner[0];
  }

  /** Different slash-free words differ up to the first slash. */
  lemma FirstWord(a: string, b: string, rest: string)
    requires Percent.Free(a, '/') && Percent.Free(b, '/') && a != b
    ensures !(a + "/" <= b + "/" + rest)
  {
    var prefix := a + "/";
    var text := b + "/" + rest;
    assert prefix[|a|] == '/' && text[|b|] == '/';
    if |a| < |b| {
      assert text[|a|] == b[|a|];
      PrefixDiffers(prefix, text, |a|);
    } else if |b| < |a| {
      assert prefix[|b|] == a[|b|];
      PrefixDiffers(prefix, text, |b|);
    } else {
      var i :| 0 <= i < |a| && a[i] != b[i];
      assert prefix[i] == a[i] && text[i] == b[i];
      PrefixDiffers(prefix, text, i);
    }
  }

  ghost predicate HostsOk(h: Hosts) {
    Percent.Free(h.full, '/') && Percent.Free(h.brief, '/') && Percent.Free(h.full, '@') && Percent.Free(h.brief, '@')
  }

  lemma ComponentIsFree(s: string)
    requires ValidComponent(s)
    ensures Percent.Free(s, '/') && !Has(s, ':') && !Has(s, '@')
  {
    forall i | 0 <= i < |s| ensures s[i] != '/' && s[i] != ':' && s[i] != '@' {
      assert IsComponentChar(s[i]);
    }
  }

  lemma NotStripped(h: Hosts, owner: string, rest: string)
    requires HostsOk(h) && Percent.Free(owner, '/') && owner != h.full && owner != h.brief
    ensures StripHosts(h, owner + "/" + rest) == owner + "/" + rest
  {
    FirstWord(h.full, owner, rest);
    FirstWord(h.brief, owner, rest);
  }

  /** A text that starts with a valid name and an at sign is no URL. */
  lemma NotAUrl(repo: string, tail: string)
    requires !Has(repo, ':')
    ensures !IsUrl(repo + "@" + tail)
  {
    NoScheme(repo, tail, "http://", 4);
    NoScheme(repo, tail, "https://", 5);
  }

  lemma NoScheme(repo: string, tail: string, scheme: string, colon: nat)
    requires !Has(repo, ':') && colon < |scheme| && scheme[colon] == ':' && forall i | 0 <= i < colon :: scheme[i] != '@'
    ensures !(scheme <= repo + "@" + tail)
  {
    var text := repo + "@" + tail;
    assert text[|repo|] == '@';
    if |repo| <= colon {
      PrefixDiffers(scheme, text, |repo|);
    } else {
      assert text[colon] == repo[colon];
      PrefixDiffers(scheme, text, colon);
    }
  }

  // ---- the round trip ------------------------------------------------------

  function FileTail(filename: Option<string>): string { if filename.Some? then ":" + filename.value else "" }

  lemma DisplayIsTrimmed(r: Ref)
    requires ValidRepo(r.repo) && r.revision != "" && Trimmed(r.revision)
    requires r.filename.Some? ==> r.filename.value != "" && Trimmed(r.filename.value)
    ensures Trim(Display(r)) == Display(r) != ""
  {
    var owner, name := RepoParts(r.repo);
    var text := Display(r);
    assert text[0] == r.repo[0];
    if r.filename.Some? {
      assert text[|text| - 1] == r.filename.value[|r.filename.value| - 1];
    } else {
      assert text[|text| - 1] == r.revision[|r.revision| - 1];
    }
    TrimSpec(text);
  }

  /** Cutting at the first colon and the first at sign. */
  lemma CutAt(name: string, revision: string, filename: Option<string>)
    requires !Has(name, ':') && !Has(name, '@') && !Has(revision, ':')
    ensures SplitOnce(name + "@" + revision + FileTail(filename), ':') == (name + "@" + revision, filename)
    ensures SplitOnce(name + "@" + revision, '@') == (name, Some(revision))
  {
    var head := name + "@" + revision;
    assert !Has(head, ':') by {
      forall i | 0 <= i < |head| ensures head[i] != ':' {
        if i < |name| {
          assert head[i] == name[i];
        } else if i > |name| {
          assert head[i] == revision[i - |name| - 1];
        }
      }
    }
    if filename.Some? {
      assert head + FileTail(filename) == head + ":" + filename.value;
      SplitOnceAt(head, ':', filename.value);
    } else {
      assert head + FileTail(filename) == head;
      SplitOnceWithout(head, ':');
    }
    SplitOnceAt(name, '@', revision);
  }

  /** The short form of an unstripped text with the three pieces in it. */
  lemma ShortOf(h: Hosts, text: string, name: string, revision: string, filename: Option<string>)
    requires StripHosts(h, text) == name + "@" + revision + FileTail(filename)
    requires !Has(name, ':') && !Has(name, '@') && !Has(revision, ':')
    ensures !ValidRepo(name) ==> ParseShort(h, text).Err?
    ensures ValidRepo(name) && revision != "" && Trimmed(revision)
            && (filename.Some? ==> filename.value != "" && Trimmed(filename.value))
            ==> ParseShort(h, text) == Ok(Ref(name, revision, filename))
  {
    CutAt(name, revision, filename);
    TrimSpec(revision);
    if filename.Some? {
      TrimSpec(filename.value);
    }
  }

  lemma PrintableRoundTrips(h: Hosts, r: Ref)
    requires HostsOk(h) && Printable(h, r)
    ensures Parse(h, Display(r)) == Ok(r)
  {
    DisplayIsTrimmed(r);
    DisplayIsNoUrl(r);
    PrintableShort(h, r);
  }

  lemma PrintableShort(h: Hosts, r: Ref)
    requires HostsOk(h) && Printable(h, r)
    ensures ParseShort(h, Display(r)) == Ok(r)
  {
    var owner, name := RepoParts(r.repo);
    ComponentIsFree(owner);
    var rest := name + "@" + r.revision + FileTail(r.filename);
    assert Display(r) == owner + "/" + rest;
    NotStripped(h, owner, rest);
    assert Display(r) == r.repo + "@" + r.revision + FileTail(r.filename);
    ShortOf(h, Display(r), r.repo, r.revision, r.filename);
  }

  lemma DisplayIsNoUrl(r: Ref)
    requires ValidRepo(r.repo)
    ensures !IsUrl(Display(r))
  {
    var owner, name := RepoParts(r.repo);
    assert Display(r) == r.repo + "@" + (r.revision + FileTail(r.filename));
    NotAUrl(r.repo, r.revision + FileTail(r.filename));
  }

  /** What the short form can produce. */
  lemma ShortIsClean(h: Hosts, text: string)
    requires ParseShort(h, text).Ok?
    ensures var r := ParseShort(h, text).value;
            && ValidRepo(r.repo) && r.revision != "" && Trimmed(r.revision) && !Has(r.revision, ':')
            && (r.filename.Some? ==> r.filename.value != "" && Trimmed(r.filename.value))
  {
    var short := StripHosts(h, text);
    var (repoRevision, file) := SplitOnce(short, ':');
    var (repo, revision) := SplitOnce(repoRevision, '@');
    SplitOnceLeft(short, ':');
    SplitOnceLeft(repoRevision, '@');
    var raw := if revision.Some? then revision.value else DEFAULT_REVISION;
    assert !Has(raw, ':') by {
      if revision.Some? {
        forall i | 0 <= i < |raw| ensures raw[i] != ':' {
          assert raw[i] == repoRevision[|repo| + 1 + i];
        }
      }
    }
    TrimSpec(raw);
    TrimKeepsOut(raw, ':');
    if file.Some? {
      TrimSpec(file.value);
    }
  }

  lemma TrimKeepsOut(s: string, c: char)
    requires !Has(s, c)
    ensures !Has(Trim(s), c)
  {
    TrimStartSpec(s);
    var t := TrimStart(s);
    TrimEndSpec(t);
    var u := Trim(s);
    forall i | 0 <= i < |u| ensures u[i] != c {
      assert u[i] == t[i] == s[|s| - |t| + i];
    }
  }

  /** A host prefix needs its slash before any at sign. */
  lemma NoHostIn(name: string, tail: string, host: string)
    requires Percent.Free(name, '/') && tail != "" && tail[0] == '@' && Percent.Free(host, '@')
    ensures !(host + "/" <= name + tail)
  {
    var text := name + tail;
    var prefix := host + "/";
    var k := |host|;
    assert text[|name|] == '@' && prefix[k] == '/';
    if |name| <= k {
      assert prefix[|name|] != '@';
      PrefixDiffers(prefix, text, |name|);
    } else {
      assert text[k] == name[k];
      PrefixDiffers(prefix, text, k);
    }
  }

  lemma StripOnce(host: string, rest: string)
    requires !(host + "/" <= rest)
    ensures StripAll(host + "/" + rest, host + "/") == rest
  {
    assert (host + "/" + rest)[|host + "/"|..] == rest;
  }

  /** A host in the owner's place is taken off, and nothing else. */
  lemma HostIsStripped(h: Hosts, owner: string, name: string, tail: string)
    requires HostsOk(h) && (owner == h.full || owner == h.brief)
    requires Percent.Free(name, '/') && tail != "" && tail[0] == '@'
    ensures StripHosts(h, owner + "/" + (name + tail)) == name + tail
  {
    var rest := name + tail;
    NoHostIn(name, tail, h.full);
    NoHostIn(name, tail, h.brief);
    if owner == h.full {
      StripOnce(h.full, rest);
    } else {
      FirstWord(h.full, owner, rest);
      StripOnce(h.brief, rest);
    }
  }

  /** Printing under a host name loses the owner: what is left has no slash. */
  lemma HostOwnerFails(h: Hosts, r: Ref)
    requires HostsOk(h) && ValidRepo(r.repo) && !Has(r.revision, ':')
    requires Percent.Split(r.repo, '/')[0] == h.full || Percent.Split(r.repo, '/')[0] == h.brief
    ensures ParseShort(h, Display(r)).Err?
  {
    var owner, name := RepoParts(r.repo);
    ComponentIsFree(name);
    var tail := "@" + r.revision + FileTail(r.filename);
    assert Display(r) == owner + "/" + (name + tail);
    HostIsStripped(h, owner, name, tail);
    assert name + tail == name + "@" + r.revision + FileTail(r.filename);
    BareNameIsInvalid(name);
    ShortOf(h, Display(r), name, r.revision, r.filename);
  }

  lemma BareNameIsInvalid(name: string)
    requires Percent.Free(name, '/')
    ensures !ValidRepo(name)
  {
    Percent.SplitFree(name, '/');
  }

  /** Parsing undoes printing exactly for the printable references. */
  lemma RoundTripIff(h: Hosts, r: Ref)
    requires h == HOSTS
    ensures Parse(h, Display(r)) == Ok(r) <==> Printable(h, r)
  {
    HostsAreOk();
    if Printable(h, r) {
      PrintableRoundTrips(h, r);
    } else if Parse(h, Display(r)) == Ok(r) {
      RoundTripIsPrintable(h, r);
    }
  }

  /** A repository of the owner "hf.co" is a valid one that printing and parsing loses. */
  lemma HostOwnerIsLost(h: Hosts, name: string, revision: string, filename: Option<string>)
    requires h == HOSTS && name != "" && ValidComponent(name)
    ensures var r := Ref(h.brief + "/" + name, revision, filename); ValidRepo(r.repo) && Parse(h, Display(r)) != Ok(r)
  {
    HostsAreOk();
    ComponentIsFree(name);
    Percent.SplitFree(name, '/');
    Percent.SplitAtSeparator(h.brief, '/', name);
    RoundTripIff(h, Ref(h.brief + "/" + name, revision, filename));
  }

  lemma HostsAreOk()
    ensures HostsOk(HOSTS) && HOSTS.brief != "" && ValidComponent(HOSTS.brief)
  {
  }

  lemma ParsedIsValid(h: Hosts, input: string)
    ensures Parse(h, input).Ok? ==> ValidRepo(Parse(h, input).value.repo)
  {
  }

  lemma RoundTripIsPrintable(h: Hosts, r: Ref)
    requires HostsOk(h) && Parse(h, Display(r)) == Ok(r)
    ensures Printable(h, r)
  {
    ParsedIsValid(h, Display(r));
    TrimmedDisplayIsNoUrl(r);
    ShortIsClean(h, Trim(Display(r)));
    DisplayIsTrimmed(r);
    if Percent.Split(r.repo, '/')[0] == h.full || Percent.Split(r.repo, '/')[0] == h.brief {
      HostOwnerFails(h, r);
    }
  }

  /** Trimming can only take white space off the end here. */
  lemma TrimmedDisplayIsNoUrl(r: Ref)
    requires ValidRepo(r.repo)
    ensures !IsUrl(Trim(Display(r)))
  {
    var owner, name := RepoParts(r.repo);
    var text := Display(r);
    assert text[0] == r.repo[0];
    assert TrimStart(text) == text;
    TrimEndSpec(text);
    DisplayIsNoUrl(r);
    PrefixOfPrefix("http://", Trim(text), text);
    PrefixOfPrefix("https://", Trim(text), text);
  }

  lemma PrefixOfPrefix(p: string, t: string, text: string)
    requires t <= text
    ensures p <= t ==> p <= text
  {
  }

  // ---- shorter forms -------------------------------------------------------

  /** A name alone, or with a file after a colon, means the revision "main". */
  lemma DefaultRevision(h: Hosts, repo: string, filename: Option<string>)
    requires HostsOk(h) && ValidRepo(repo) && Percent.Split(repo, '/')[0] != h.full && Percent.Split(repo, '/')[0] != h.brief
    requires filename.Some? ==> filename.value != "" && Trimmed(filename.value)
    ensures Parse(h, repo + FileTail(filename)) == Ok(Ref(repo, "main", filename))
  {
    var owner, name := RepoParts(repo);
    ComponentIsFree(owner);
    ComponentIsFree(name);
    NameIsTrimmed(repo, owner, name, filename);
    TailRegroups(owner, name, FileTail(filename));
    NotStripped(h, owner, name + FileTail(filename));
    NameReads(h, repo + FileTail(filename), repo, filename);
    NameIsNoUrl(owner, name, FileTail(filename));
  }

  lemma TailRegroups(owner: string, name: string, tail: string)
    ensures owner + "/" + name + tail == owner + "/" + (name + tail)
  {
  }

  lemma NameIsTrimmed(repo: string, owner: string, name: string, filename: Option<string>)
    requires repo == owner + "/" + name && owner != "" && name != "" && ValidComponent(owner) && ValidComponent(name)
    requires filename.Some? ==> filename.value != "" && Trimmed(filename.value)
    ensures Trim(repo + FileTail(filename)) == repo + FileTail(filename) != ""
  {
    var text := repo + FileTail(filename);
    assert IsComponentChar(owner[0]) && text[0] == owner[0];
    if filename.Some? {
      assert text[|text| - 1] == filename.value[|filename.value| - 1];
    } else {
      assert text[|text| - 1] == name[|name| - 1] && IsComponentChar(name[|name| - 1]);
    }
    TrimSpec(text);
  }

  lemma NameReads(h: Hosts, text: string, repo: string, filename: Option<string>)
    requires StripHosts(h, text) == text == repo + FileTail(filename)
    requires ValidRepo(repo) && !Has(repo, ':') && !Has(repo, '@')
    requires filename.Some? ==> filename.value != "" && Trimmed(filename.value)
    ensures ParseShort(h, text) == Ok(Ref(repo, "main", filename))
  {
    if filename.Some? {
      assert text == repo + ":" + filename.value;
      SplitOnceAt(repo, ':', filename.value);
      TrimSpec(filename.value);
    } else {
      assert text == repo;
      SplitOnceWithout(repo, ':');
    }
    SplitOnceWithout(repo, '@');
    TrimSpec(DEFAULT_REVISION);
  }

  /** The colon of a scheme is followed by slashes, and comes before any other slash. */
  lemma NameIsNoUrl(owner: string, name: string, tail: string)
    requires ValidComponent(owner)
    ensures !IsUrl(owner + "/" + (name + tail))
  {
    ComponentIsFree(owner);
    NoSchemeBefore(owner, name + tail, "http://", 4);
    NoSchemeBefore(owner, name + tail, "https://", 5);
  }

  lemma NoSchemeBefore(owner: string, tail: string, scheme: string, colon: nat)
    requires !Has(owner, ':') && colon < |scheme| && scheme[colon] == ':' && forall i | 0 <= i < colon :: scheme[i] != '/'
    ensures !(scheme <= owner + "/" + tail)
  {
    var text := owner + "/" + tail;
    assert text[|owner|] == '/';
    if |owner| <= colon {
      PrefixDiffers(scheme, text, |owner|);
    } else {
      assert text[colon] == owner[colon];
      PrefixDiffers(scheme, text, colon);
    }
  }

  /** A host in front of a printed reference changes nothing. */
  lemma HostPrefixIgnored(h: Hosts, host: string, r: Ref)
    requires h == HOSTS && (host == h.full || host == h.brief) && Printable(h, r)
    ensures Parse(h, host + "/" + Display(r)) == Ok(r)
  {
    HostsAreOk();
    HostIsName(h);
    PrefixStripped(h, host, r);
    PrintableShort(h, r);
    DisplayIsTrimmed(r);
    PrefixIsTrimmed(host, Display(r));
    assert Display(r) + "" == Display(r);
    NameIsNoUrl(host, Display(r), "");
  }

  lemma PrefixIsTrimmed(host: string, text: string)
    requires host != "" && host[0] == 'h' && text != "" && Trim(text) == text
    ensures Trim(host + "/" + text) == host + "/" + text != ""
  {
    var whole := host + "/" + text;
    assert whole[0] == host[0] && whole[|whole| - 1] == text[|text| - 1];
    TrimSpec(text);
    TrimSpec(whole);
  }

  lemma HostIsName(h: Hosts)
    requires h == HOSTS
    ensures ValidComponent(h.full) && ValidComponent(h.brief)
    ensures h.full != "" && h.brief != "" && h.full[0] == h.brief[0] == 'h'
  {
  }

  lemma PrefixStripped(h: Hosts, host: string, r: Ref)
    requires HostsOk(h) && h.full != h.brief && (host == h.full || host == h.brief) && Printable(h, r)
    ensures ParseShort(h, host + "/" + Display(r)) == ParseShort(h, Display(r))
  {
    var owner, name := RepoParts(r.repo);
    ComponentIsFree(owner);
    var rest := name + "@" + r.revision + FileTail(r.filename);
    assert Display(r) == owner + "/" + rest;
    NotStripped(h, owner, rest);
    FirstWord(h.full, owner, rest);
    FirstWord(h.brief, owner, rest);
    if host == h.full {
      StripOnce(h.full, Display(r));
    } else {
      FirstWord(h.full, h.brief, Display(r));
      StripOnce(h.brief, Display(r));
    }
  }
}
