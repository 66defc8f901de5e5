/** Strings: the order of an ordered set of names, and Unicode trimming. */
module Text {

  // ---- lexicographic order -------------------------------------------------

  /** Strict lexicographic order on scalar values, which is also the order of
      the UTF-8 encodings. */
  predicate Less(a: string, b: string) {
    |b| > 0 && (|a| == 0 || a[0] < b[0] || (a[0] == b[0] && Less(a[1..], b[1..])))
  }

  lemma {:induction false} LessIsTotal(a: string, b: string)
    ensures Less(a, b) || Less(b, a) || a == b
    ensures !(Less(a, b) && Less(b, a))
    ensures !Less(a, a)
  {
    if |a| > 0 && |b| > 0 {
      LessIsTotal(a[1..], b[1..]);
      LessIsTotal(a[1..], a[1..]);
      assert a[1..] == b[1..] && a[0] == b[0] ==> a == [a[0]] + a[1..] == [b[0]] + b[1..] == b;
    } else if |a| > 0 {
      LessIsTotal(a[1..], a[1..]);
    }
  }

  /** The texts agree up to `k`, where the first one ends or has the smaller character. */
  predicate LessAt(a: string, b: string, k: nat) {
    k <= |a| && k < |b| && a[..k] == b[..k] && (k == |a| || a[k] < b[k])
  }

  lemma {:induction false} LessIff(a: string, b: string)
    ensures Less(a, b) <==> exists k: nat :: LessAt(a, b, k)
  {
    if |a| > 0 && |b| > 0 && a[0] == b[0] {
      LessIff(a[1..], b[1..]);
      if k: nat :| LessAt(a[1..], b[1..], k) {
        assert a[..k + 1] == [a[0]] + a[1..][..k] && b[..k + 1] == [b[0]] + b[1..][..k];
        assert LessAt(a, b, k + 1);
      }
      if k: nat :| LessAt(a, b, k) {
        assert k > 0;
        assert a[1..][..k - 1] == a[..k][1..] && b[1..][..k - 1] == b[..k][1..];
        assert LessAt(a[1..], b[1..], k - 1);
      }
    } else if Less(a, b) {
      assert LessAt(a, b, 0);
    } else {
      forall k: nat | LessAt(a, b, k) ensures k == 0 || a[0] == b[0] {
        HeadsAgree(a, b, k);
      }
    }
  }

  lemma HeadsAgree(a: string, b: string, k: nat)
    requires LessAt(a, b, k)
    ensures k > 0 ==> a[0] == b[0]
  {
    assert k > 0 ==> a[..k][0] == b[..k][0];
  }

  lemma {:induction false} LessIsTransitive(a: string, b: string, c: string)
    requires Less(a, b) && Less(b, c)
    ensures Less(a, c)
  {
    if |a| > 0 && a[0] == b[0] == c[0] {
      LessIsTransitive(a[1..], b[1..], c[1..]);
    }
  }

  ghost predicate Ascending(s: seq<string>) {
    forall i, j | 0 <= i < j < |s| :: Less(s[i], s[j])
  }

  lemma {:induction false} LeastExists(s: set<string>) returns (least: string)
    requires s != {}
    ensures least in s && forall x | x in s && x != least :: Less(least, x)
  {
    var e :| e in s;
    if s == {e} {
      least := e;
    } else {
      var rest := LeastExists(s - {e});
      LessIsTotal(e, rest);
      least := if Less(e, rest) then e else rest;
      forall x | x in s && x != least ensures Less(least, x) {
        if x != e && least == e && x != rest {
          LessIsTransitive(e, rest, x);
        }
      }
    }
  }

  /** The elements of a set in ascending order. */
  ghost function Sorted(s: set<string>): (r: seq<string>)
    ensures Ascending(r) && |r| == |s|
    ensures forall x :: x in r <==> x in s
  {
    if s == {} then []
    else
      assert exists least :: least in s && forall x | x in s && x != least :: Less(least, x) by {
        var least := LeastExists(s);
      }
      var least :| least in s && forall x | x in s && x != least :: Less(least, x);
      [least] + Sorted(s - {least})
  }

  lemma {:induction false} AscendingIsUnique(a: seq<string>, b: seq<string>)
    requires Ascending(a) && Ascending(b) && |a| == |b|
    requires forall x :: x in a <==> x in b
    ensures a == b
  {
    if a != [] {
      assert a[0] in b && a[0] in a;
      var i :| 0 <= i < |b| && b[i] == a[0];
      assert b[0] in a;
      var j :| 0 <= j < |a| && a[j] == b[0];
      LessIsTotal(a[0], b[0]);
      assert a[0] == b[0];
      forall x ensures x in a[1..] <==> x in b[1..] {
        LessIsTotal(a[0], a[0]);
        assert x in a <==> x == a[0] || x in a[1..];
        assert x in b <==> x == b[0] || x in b[1..];
        assert a[0] !in a[1..] && b[0] !in b[1..];
      }
      AscendingIsUnique(a[1..], b[1..]);
      assert a == [a[0]] + a[1..] && b == [b[0]] + b[1..];
    }
  }

  // ---- trimming ------------------------------------------------------------

  /** The Unicode White_Space property. */
  predicate IsWhitespace(c: char) {
    || '\U{0009}' <= c <= '\U{000D}' || c == ' ' || c == '\U{0085}' || c == '\U{00A0}' || c == '\U{1680}'
    || '\U{2000}' <= c <= '\U{200A}' || c == '\U{2028}' || c == '\U{2029}' || c == '\U{202F}'
    || c == '\U{205F}' || c == '\U{3000}'
  }

  /** The 25 characters of the property. */
  lemma WhitespaceIs(c: char)
    ensures IsWhitespace(c)
            <==> c in "\t\n\U{000B}\U{000C}\r \U{0085}\U{00A0}\U{1680}"
                 || c in "\U{2000}\U{2001}\U{2002}\U{2003}\U{2004}\U{2005}\U{2006}\U{2007}\U{2008}\U{2009}\U{200A}"
                 || c in "\U{2028}\U{2029}\U{202F}\U{205F}\U{3000}"
  {
  }

  function TrimStart(s: string): (r: string)
    ensures |r| <= |s|
  {
    if s != [] && IsWhitespace(s[0]) then TrimStart(s[1..]) else s
  }

  function TrimEnd(s: string): (r: string)
    ensures |r| <= |s|
  {
    if s != [] && IsWhitespace(s[|s| - 1]) then TrimEnd(s[..|s| - 1]) else s
  }

  predicate AllBlank(s: string) { forall i | 0 <= i < |s| :: IsWhitespace(s[i]) }

  /** Exactly the leading white space goes. */
  lemma {:induction false} TrimStartSpec(s: string)
    ensures var r := TrimStart(s);
            && s == s[..|s| - |r|] + r && AllBlank(s[..|s| - |r|])
            && (r == [] || !IsWhitespace(r[0]))
  {
    if s != [] && IsWhitespace(s[0]) {
      TrimStartSpec(s[1..]);
    }
  }

  /** Exactly the trailing white space goes. */
  lemma {:induction false} TrimEndSpec(s: string)
    ensures var r := TrimEnd(s);
            && s == r + s[|r|..] && AllBlank(s[|r|..])
            && (r == [] || !IsWhitespace(r[|r| - 1]))
  {
    if s != [] && IsWhitespace(s[|s| - 1]) {
      TrimEndSpec(s[..|s| - 1]);
    }
  }

  function Trim(s: string): string { TrimEnd(TrimStart(s)) }

  /** Neither end is white space. */
  predicate Trimmed(s: string) {
    s == [] || (!IsWhitespace(s[0]) && !IsWhitespace(s[|s| - 1]))
  }

  /** Text without white space at its ends is left alone. */
  lemma TrimmedIsKept(s: string)
    requires Trimmed(s)
    ensures Trim(s) == s
  {
    assert TrimStart(s) == s;
    assert TrimEnd(s) == s;
  }

  lemma TrimIsTrimmed(s: string)
    ensures Trimmed(Trim(s))
  {
    var start := TrimStart(s);
    var t := TrimEnd(start);
    TrimStartSpec(s);
    TrimEndSpec(start);
    if t != [] {
      assert start[0] == (t + start[|t|..])[0] == t[0];
    }
  }

  lemma TrimSpec(s: string)
    ensures Trimmed(Trim(s))
    ensures Trimmed(s) <==> Trim(s) == s
    ensures Trim(Trim(s)) == Trim(s)
  {
    TrimIsTrimmed(s);
    TrimmedIsKept(Trim(s));
    if Trimmed(s) {
      TrimmedIsKept(s);
    }
  }
}
