/** The URL form of a Hugging Face reference: which URLs are accepted, and what is read from
each. */
module RepoUrl {
  import opened Common
  import opened Text
  import opened RepoRef
  import Percent

  predicate Slashes(s: string) { forall i | 0 <= i < |s| :: s[i] == '/' }

  /** The path of a file in a revision of a repository. */
  function FilePath(owner: string, name: string, revision: string, file: string): string {
    owner + "/" + (name + "/" + ("resolve" + "/" + (revision + "/" + file)))
  }

  /** A letter, a digit, a dash, an underscore or a dot. */
  predicate NameChar(c: char) {
    'a' <= c <= 'z' || 'A' <= c <= 'Z' || '0' <= c <= '9' || c == '-' || c == '_' || c == '.'
  }

  predicate ValidName(s: string) { s != "" && forall i | 0 <= i < |s| :: NameChar(s[i]) }

  /** What a URL names: valid owner and name, a revision without slashes, and a file that
      does not end with one. */
  predicate Names(owner: string, name: string, revision: string, file: string) {
    && ValidName(owner) && ValidName(name)
    && revision != "" && !Has(revision, '/')
    && file != "" && file[|file| - 1] != '/'
  }

  /** The text is this path under a scheme and a host, in any slashes. */
  ghost predicate UrlWith(h: Hosts, text: string, path: string, scheme: string, host: string, before: string, after: string) {
    && (scheme == "https://" || scheme == "http://") && (host == h.full || host == h.brief)
    && Slashes(before) && Slashes(after)
    && text == UrlText(scheme, host, before + path + after)
  }

  /** A URL of that file: either scheme, either host, and any slashes around the path. */
  ghost predicate IsUrlOf(h: Hosts, text: string, owner: string, name: string, revision: string, file: string) {
    exists scheme, host, before, after :: UrlWith(h, text, FilePath(owner, name, revision, file), scheme, host, before, after)
  }

  function UrlText(scheme: string, host: string, path: string): string { scheme + (host + "/" + path) }

  // ---- pieces --------------------------------------------------------------

  lemma NotHasIsFree(s: string, c: char)
    ensures Percent.Free(s, c) <==> !Has(s, c)
  {
  }

  lemma NameIsFree(s: string)
    requires ValidName(s)
    ensures Percent.Free(s, '/')
  {
    forall i | 0 <= i < |s| ensures s[i] != '/' {
      assert NameChar(s[i]);
    }
  }

  lemma SplitTwo(a: string, b: string)
    requires Percent.Free(a, '/') && Percent.Free(b, '/')
    ensures Percent.Split(a + "/" + b, '/') == [a, b]
  {
    Percent.SplitFree(b, '/');
    Percent.SplitAtSeparator(a, '/', b);
  }

  /** A repository is two valid names with a slash between them, and nothing else is. */
  lemma ValidRepoIff(repo: string)
    ensures ValidRepo(repo) <==> exists owner, name :: ValidName(owner) && ValidName(name) && repo == owner + "/" + name
  {
    if ValidRepo(repo) {
      var owner, name := RepoParts(repo);
      assert ValidName(owner) && ValidName(name);
    }
    if owner, name :| ValidName(owner) && ValidName(name) && repo == owner + "/" + name {
      NameIsFree(owner);
      NameIsFree(name);
      SplitTwo(owner, name);
    }
  }

  lemma ValidRepoOf(owner: string, name: string)
    requires Percent.Free(owner, '/') && Percent.Free(name, '/')
    ensures ValidRepo(owner + "/" + name) <==> ValidName(owner) && ValidName(name)
  {
    SplitTwo(owner, name);
  }

  lemma {:induction false} TrimLeftIs(before: string, core: string)
    requires Slashes(before) && (core == "" || core[0] != '/')
    ensures TrimLeft(before + core, '/') == core
  {
    if before != "" {
      assert (before + core)[1..] == before[1..] + core;
      TrimLeftIs(before[1..], core);
    } else {
      assert before + core == core;
    }
  }

  lemma {:induction false} TrimRightIs(core: string, after: string)
    requires Slashes(after) && (core == "" || core[|core| - 1] != '/')
    ensures TrimRight(core + after, '/') == core
  {
    var s := core + after;
    if after != "" {
      assert s[..|s| - 1] == core + after[..|after| - 1];
      TrimRightIs(core, after[..|after| - 1]);
    } else {
      assert s == core;
    }
  }

  /** Trimming takes off exactly the slashes at the left end. */
  lemma {:induction false} TrimLeftSpec(s: string) returns (before: string)
    ensures s == before + TrimLeft(s, '/') && Slashes(before)
    ensures TrimLeft(s, '/') != "" ==> TrimLeft(s, '/')[0] != '/'
  {
    before := "";
    if s != "" && s[0] == '/' {
      before := TrimLeftSpec(s[1..]);
      before := "/" + before;
    }
  }

  lemma {:induction false} TrimRightSpec(s: string) returns (after: string)
    ensures s == TrimRight(s, '/') + after && Slashes(after)
    ensures TrimRight(s, '/') != "" ==> TrimRight(s, '/')[|TrimRight(s, '/')| - 1] != '/'
  {
    after := "";
    if s != "" && s[|s| - 1] == '/' {
      after := TrimRightSpec(s[..|s| - 1]);
      after := after + "/";
    }
  }

  // ---- reading a path ------------------------------------------------------

  lemma PathSplits(owner: string, name: string, revision: string, file: string)
    requires Percent.Free(owner, '/') && Percent.Free(name, '/') && Percent.Free(revision, '/')
    ensures Percent.Split(FilePath(owner, name, revision, file), '/')
            == [owner] + ([name] + (["resolve"] + ([revision] + Percent.Split(file, '/'))))
  {
    Percent.SplitAtSeparator(revision, '/', file);
    Percent.SplitAtSeparator("resolve", '/', revision + "/" + file);
    Percent.SplitAtSeparator(name, '/', "resolve" + "/" + (revision + "/" + file));
    Percent.SplitAtSeparator(owner, '/', name + "/" + ("resolve" + "/" + (revision + "/" + file)));
  }

  /** What the parts of a path amount to. */
  function ReadParts(parts: seq<string>): Result<Ref, ParseError> {
    if |parts| < 5 || parts[2] != "resolve" then Err(NotResolveUrl)
    else if !ValidRepo(parts[0] + "/" + parts[1]) then Err(InvalidRepo)
    else if parts[3] == "" then Err(EmptyRevision)
    else if Percent.Join(parts[4..], '/') == "" then Err(EmptyFilename)
    else Ok(Ref(parts[0] + "/" + parts[1], parts[3], Some(Percent.Join(parts[4..], '/'))))
  }

  lemma UrlReads(h: Hosts, scheme: string, host: string, path: string)
    requires scheme == "https://" || scheme == "http://"
    requires Percent.Free(host, '/')
    ensures ParseUrl(h, UrlText(scheme, host, path))
            == if host != h.full && host != h.brief then Err(NotHuggingFace)
               else ReadParts(Percent.Split(TrimRight(TrimLeft(path, '/'), '/'), '/'))
  {
    var text := UrlText(scheme, host, path);
    assert text[|scheme|..] == host + "/" + path;
    SchemeOf(scheme, host + "/" + path);
    NotHasIsFree(host, '/');
    SplitOnceAt(host, '/', path);
    TrimRightIs(host, "");
    assert host + "" == host;
  }

  lemma SchemeOf(scheme: string, rest: string)
    requires scheme == "https://" || scheme == "http://"
    ensures "https://" <= scheme + rest <==> scheme == "https://"
    ensures "http://" <= scheme + rest <==> scheme == "http://"
  {
    assert (scheme + rest)[4] == scheme[4];
    assert scheme <= scheme + rest;
  }

  lemma PathReads(owner: string, name: string, revision: string, file: string)
    requires Names(owner, name, revision, file)
    ensures ReadParts(Percent.Split(FilePath(owner, name, revision, file), '/')) == Ok(Ref(owner + "/" + name, revision, Some(file)))
  {
    NameIsFree(owner);
    NameIsFree(name);
    NotHasIsFree(revision, '/');
    PathSplits(owner, name, revision, file);
    ValidRepoOf(owner, name);
    Percent.JoinOfSplit(file, '/');
    var tail := Percent.Split(file, '/');
    var parts := [owner] + ([name] + (["resolve"] + ([revision] + tail)));
    assert parts == [owner, name, "resolve", revision] + tail;
    assert parts[4..] == tail;
  }

  lemma PathEnds(owner: string, name: string, revision: string, file: string)
    requires Names(owner, name, revision, file)
    ensures var path := FilePath(owner, name, revision, file);
            path != "" && path[0] != '/' && path[|path| - 1] == file[|file| - 1]
  {
    assert NameChar(owner[0]);
    assert FilePath(owner, name, revision, file)[0] == owner[0];
  }

  lemma SlashesComeOff(before: string, path: string, after: string)
    requires Slashes(before) && Slashes(after) && path != "" && path[0] != '/' && path[|path| - 1] != '/'
    ensures TrimRight(TrimLeft(before + path + after, '/'), '/') == path
  {
    assert before + path + after == before + (path + after);
    TrimLeftIs(before, path + after);
    TrimRightIs(path, after);
  }

  lemma UrlWithIsRead(h: Hosts, text: string, path: string, scheme: string, host: string, before: string, after: string)
    requires Percent.Free(h.full, '/') && Percent.Free(h.brief, '/')
    requires UrlWith(h, text, path, scheme, host, before, after)
    requires path != "" && path[0] != '/' && path[|path| - 1] != '/'
    ensures ParseUrl(h, text) == ReadParts(Percent.Split(path, '/'))
  {
    UrlReads(h, scheme, host, before + path + after);
    SlashesComeOff(before, path, after);
  }

  /** Every URL of a file is read as that file. */
  lemma UrlOfIsRead(h: Hosts, text: string, owner: string, name: string, revision: string, file: string)
    requires Percent.Free(h.full, '/') && Percent.Free(h.brief, '/')
    requires Names(owner, name, revision, file) && IsUrlOf(h, text, owner, name, revision, file)
    ensures ParseUrl(h, text) == Ok(Ref(owner + "/" + name, revision, Some(file)))
  {
    var path := FilePath(owner, name, revision, file);
    var scheme, host, before, after :| UrlWith(h, text, path, scheme, host, before, after);
    PathEnds(owner, name, revision, file);
    UrlWithIsRead(h, text, path, scheme, host, before, after);
    PathReads(owner, name, revision, file);
  }

  // ---- only those ----------------------------------------------------------

  lemma PathOfParts(path: string) returns (owner: string, name: string, revision: string, file: string)
    requires path != "" && path[|path| - 1] != '/' && ReadParts(Percent.Split(path, '/')).Ok?
    ensures Names(owner, name, revision, file) && path == FilePath(owner, name, revision, file)
    ensures ReadParts(Percent.Split(path, '/')) == Ok(Ref(owner + "/" + name, revision, Some(file)))
  {
    var parts := Percent.Split(path, '/');
    Percent.JoinOfSplit(path, '/');
    owner, name, revision, file := parts[0], parts[1], parts[3], Percent.Join(parts[4..], '/');
    assert Percent.Free(parts[0], '/') && Percent.Free(parts[1], '/') && Percent.Free(parts[3], '/');
    ValidRepoOf(owner, name);
    NotHasIsFree(revision, '/');
    JoinFive(parts);
    assert path[|path| - 1] == file[|file| - 1];
  }

  lemma JoinFive(parts: seq<string>)
    requires |parts| >= 5 && parts[2] == "resolve"
    ensures Percent.Join(parts, '/') == FilePath(parts[0], parts[1], parts[3], Percent.Join(parts[4..], '/'))
  {
    JoinNext(parts, 0);
    JoinNext(parts, 1);
    JoinNext(parts, 2);
    JoinNext(parts, 3);
    assert parts[0..] == parts;
  }

  lemma JoinNext(parts: seq<string>, k: nat)
    requires k + 1 < |parts|
    ensures Percent.Join(parts[k..], '/') == parts[k] + "/" + Percent.Join(parts[k + 1..], '/')
  {
    assert parts[k..][1..] == parts[k + 1..];
  }

  lemma UrlCut(text: string) returns (scheme: string, rest: string)
    requires IsUrl(text)
    ensures (scheme == "https://" || scheme == "http://") && text == scheme + rest
  {
    if "https://" <= text {
      scheme, rest := "https://", text[8..];
    } else {
      scheme, rest := "http://", text[7..];
    }
  }

  lemma HostCut(rest: string) returns (host: string, path: Option<string>)
    ensures Percent.Free(host, '/')
    ensures rest == if path.Some? then host + "/" + path.value else host
  {
    SplitOnceLeft(rest, '/');
    host, path := SplitOnce(rest, '/').0, SplitOnce(rest, '/').1;
    NotHasIsFree(host, '/');
  }

  /** An accepted URL is a URL of the file that is read from it. */
  lemma ReadIsUrlOf(h: Hosts, text: string) returns (owner: string, name: string, revision: string, file: string)
    requires IsUrl(text) && ParseUrl(h, text).Ok?
    ensures Names(owner, name, revision, file) && IsUrlOf(h, text, owner, name, revision, file)
    ensures ParseUrl(h, text) == Ok(Ref(owner + "/" + name, revision, Some(file)))
  {
    var scheme, rest := UrlCut(text);
    var host, path := HostCut(rest);
    if path.None? {
      NoPath(h, text, scheme, host);
      assert false;
    } else {
      assert text == UrlText(scheme, host, path.value);
      UrlReads(h, scheme, host, path.value);
      owner, name, revision, file := PathRead(path.value);
      var before, after := PathFound(path.value);
      assert UrlWith(h, text, FilePath(owner, name, revision, file), scheme, host, before, after);
    }
  }

  lemma PathFound(path: string) returns (before: string, after: string)
    ensures path == before + TrimRight(TrimLeft(path, '/'), '/') + after && Slashes(before) && Slashes(after)
  {
    before := TrimLeftSpec(path);
    after := TrimRightSpec(TrimLeft(path, '/'));
  }

  lemma NoPath(h: Hosts, text: string, scheme: string, host: string)
    requires (scheme == "https://" || scheme == "http://") && text == scheme + host && Percent.Free(host, '/')
    ensures ParseUrl(h, text).Err?
  {
    SchemeOf(scheme, host);
    assert text[|scheme|..] == host;
    NotHasIsFree(host, '/');
    SplitOnceWithout(host, '/');
    assert Percent.Split("", '/') == [""];
  }

  lemma PathRead(path: string) returns (owner: string, name: string, revision: string, file: string)
    requires ReadParts(Percent.Split(TrimRight(TrimLeft(path, '/'), '/'), '/')).Ok?
    ensures Names(owner, name, revision, file) && TrimRight(TrimLeft(path, '/'), '/') == FilePath(owner, name, revision, file)
    ensures ReadParts(Percent.Split(TrimRight(TrimLeft(path, '/'), '/'), '/')) == Ok(Ref(owner + "/" + name, revision, Some(file)))
  {
    var core := TrimRight(TrimLeft(path, '/'), '/');
    var after := TrimRightSpec(TrimLeft(path, '/'));
    assert core != "";
    owner, name, revision, file := PathOfParts(core);
  }

  // ---- the parser ----------------------------------------------------------

  /** White space around a reference never matters. */
  lemma ParseTrims(h: Hosts, input: string)
    ensures Parse(h, input) == Parse(h, Trim(input))
  {
    TrimSpec(input);
  }

  /** A URL is read as a file of a repository at a revision if and only if it is a URL of
      that file, and it is refused if and only if it is a URL of no file. */
  lemma UrlIff(h: Hosts, url: string, owner: string, name: string, revision: string, file: string)
    requires Percent.Free(h.full, '/') && Percent.Free(h.brief, '/') && Trimmed(url) && IsUrl(url)
    ensures Names(owner, name, revision, file) ==>
              (Parse(h, url) == Ok(Ref(owner + "/" + name, revision, Some(file))) <==> IsUrlOf(h, url, owner, name, revision, file))
    ensures Parse(h, url).Err? <==> !exists o, n, r, f :: Names(o, n, r, f) && IsUrlOf(h, url, o, n, r, f)
  {
    TrimSpec(url);
    if Parse(h, url).Ok? {
      var o, n, r, f := ReadIsUrlOf(h, url);
      if Names(owner, name, revision, file) && Parse(h, url) == Ok(Ref(owner + "/" + name, revision, Some(file))) {
        SameNames(owner, name, o, n);
      }
    }
    if o, n, r, f :| Names(o, n, r, f) && IsUrlOf(h, url, o, n, r, f) {
      UrlOfIsRead(h, url, o, n, r, f);
    }
    if Names(owner, name, revision, file) && IsUrlOf(h, url, owner, name, revision, file) {
      UrlOfIsRead(h, url, owner, name, revision, file);
    }
  }

  lemma SameNames(owner: string, name: string, o: string, n: string)
    requires ValidName(owner) && ValidName(name) && ValidName(o) && ValidName(n) && owner + "/" + name == o + "/" + n
    ensures owner == o && name == n
  {
    NameIsFree(owner);
    NameIsFree(name);
    NameIsFree(o);
    NameIsFree(n);
    SplitTwo(owner, name);
    SplitTwo(o, n);
    assert [owner, name][0] == [o, n][0] && [owner, name][1] == [o, n][1];
  }

  lemma Regroup(front: string, x: string, sep: string, rest: string)
    ensures front + x + sep + rest == front + (x + sep + rest)
  {
  }

  /** The pieces of an address, however they are grouped. */
  lemma AddressText(scheme: string, host: string, owner: string, name: string, revision: string, file: string)
    ensures scheme + host + "/" + owner + "/" + name + "/resolve/" + revision + "/" + file
            == UrlText(scheme, host, FilePath(owner, name, revision, file))
  {
    var last := revision + "/" + file;
    Regroup(scheme + host + "/" + owner + "/" + name + "/resolve/", revision, "/", file);
    assert "/resolve/" == "/" + "resolve" + "/";
    Regroup(scheme + host + "/" + owner + "/" + name + "/", "resolve", "/", last);
    ResolveApart(scheme + host + "/" + owner + "/" + name, last);
    Regroup(scheme + host + "/" + owner + "/", name, "/", "resolve" + "/" + last);
    Regroup(scheme + host + "/", owner, "/", name + "/" + ("resolve" + "/" + last));
    Regroup(scheme, host, "/", FilePath(owner, name, revision, file));
  }

  lemma ResolveApart(front: string, last: string)
    ensures front + "/resolve/" + last == front + "/" + "resolve" + "/" + last
  {
    assert "/resolve/" == "/" + "resolve" + "/";
    Regroup(front, "/", "resolve", "/");
    assert front + ("/" + "resolve" + "/") == front + "/resolve/";
  }

  /** The address of a file, written out, is read back as that file. */
  lemma UrlRoundTrip(h: Hosts, scheme: string, host: string, owner: string, name: string, revision: string, file: string)
    requires h == HOSTS && (scheme == "https://" || scheme == "http://") && (host == h.full || host == h.brief)
    requires Names(owner, name, revision, file) && !IsWhitespace(file[|file| - 1])
    ensures Parse(h, scheme + host + "/" + owner + "/" + name + "/resolve/" + revision + "/" + file)
            == Ok(Ref(owner + "/" + name, revision, Some(file)))
  {
    HostsAreOk();
    AddressText(scheme, host, owner, name, revision, file);
    AddressReads(h, scheme, host, owner, name, revision, file);
  }

  lemma UrlTextEnds(scheme: string, host: string, path: string)
    requires (scheme == "https://" || scheme == "http://") && path != ""
    ensures var url := UrlText(scheme, host, path);
            IsUrl(url) && (!IsWhitespace(path[|path| - 1]) ==> Trim(url) == url != "")
  {
    var url := UrlText(scheme, host, path);
    SchemeOf(scheme, host + "/" + path);
    assert url[0] == 'h' && url[|url| - 1] == path[|path| - 1];
    TrimSpec(url);
  }

  lemma AddressReads(h: Hosts, scheme: string, host: string, owner: string, name: string, revision: string, file: string)
    requires Percent.Free(h.full, '/') && Percent.Free(h.brief, '/')
    requires (scheme == "https://" || scheme == "http://") && (host == h.full || host == h.brief)
    requires Names(owner, name, revision, file) && !IsWhitespace(file[|file| - 1])
    ensures Parse(h, UrlText(scheme, host, FilePath(owner, name, revision, file))) == Ok(Ref(owner + "/" + name, revision, Some(file)))
  {
    var path := FilePath(owner, name, revision, file);
    var url := UrlText(scheme, host, path);
    PathEnds(owner, name, revision, file);
    UrlTextEnds(scheme, host, path);
    AddressWith(h, url, path, scheme, host);
    UrlWithIsRead(h, url, path, scheme, host, "", "");
    PathReads(owner, name, revision, file);
  }

  lemma AddressWith(h: Hosts, url: string, path: string, scheme: string, host: string)
    requires (scheme == "https://" || scheme == "http://") && (host == h.full || host == h.brief) && url == UrlText(scheme, host, path)
    ensures UrlWith(h, url, path, scheme, host, "", "")
  {
    assert "" + path + "" == path;
  }
}
