/** Sealed checkpoints on disk, and the stage dispatch of the production driver. */
module Checkpoints {
  import opened Common
  import opened Workflow
  import opened Runs

  // ---- file names ----------------------------------------------------------

  function Digit(d: nat): char
    requires d < 10
  {
    (d as char) + '0'
  }

  /** Decimal digits, without leading zeros. */
  function Decimal(n: nat): string {
    if n < 10 then [Digit(n)] else Decimal(n / 10) + [Digit(n % 10)]
  }

  function Padded(s: string, width: nat): string
    decreases SatSub(width, |s|)
  {
    if |s| >= width then s else Padded(['0'] + s, width)
  }

  /** `{:012}-{first 16 characters of the hash}.json` */
  function Filename(sequence: nat, hash: string): string
    requires |hash| >= 16
  {
    Number(sequence) + "-" + hash[..16] + ".json"
  }

  ghost predicate AllDigits(s: string) { forall i | 0 <= i < |s| :: '0' <= s[i] <= '9' }

  ghost function Value(s: string): nat
    requires AllDigits(s)
  {
    if s == [] then 0 else 10 * Value(s[..|s| - 1]) + (s[|s| - 1] - '0') as nat
  }

  lemma {:induction false} DecimalValue(n: nat)
    ensures AllDigits(Decimal(n)) && Value(Decimal(n)) == n
  {
    var s := Decimal(n);
    if n < 10 {
      assert s[..|s| - 1] == [];
    } else {
      DecimalValue(n / 10);
      assert s[..|s| - 1] == Decimal(n / 10);
    }
  }

  lemma {:induction false} LeadingZero(s: string)
    requires AllDigits(s)
    ensures AllDigits(['0'] + s) && Value(['0'] + s) == Value(s)
  {
    var t := ['0'] + s;
    if s == [] {
      assert t[..|t| - 1] == [];
    } else {
      LeadingZero(s[..|s| - 1]);
      assert t[..|t| - 1] == ['0'] + s[..|s| - 1];
    }
  }

  lemma {:induction false} PaddedValue(s: string, width: nat)
    requires AllDigits(s)
    ensures AllDigits(Padded(s, width)) && Value(Padded(s, width)) == Value(s)
    decreases SatSub(width, |s|)
  {
    if |s| < width {
      LeadingZero(s);
      PaddedValue(['0'] + s, width);
    }
  }

  lemma NoDashYet(x: string, p: string, i: nat)
    requires AllDigits(x) && i < |x|
    ensures (x + "-" + p)[i] != '-'
  {
    assert (x + "-" + p)[i] == x[i];
  }

  lemma DashNotEarlier(x: string, y: string, p: string, q: string)
    requires AllDigits(y) && x + "-" + p == y + "-" + q
    ensures |y| <= |x|
  {
    assert (x + "-" + p)[|x|] == '-';
    if |x| < |y| {
      NoDashYet(y, q, |x|);
    }
  }

  /** Digits end at the first dash. */
  lemma DigitsBeforeDash(x: string, y: string, p: string, q: string)
    requires AllDigits(x) && AllDigits(y) && x + "-" + p == y + "-" + q
    ensures x == y && p == q
  {
    DashNotEarlier(x, y, p, q);
    DashNotEarlier(y, x, q, p);
    var s, t := x + "-" + p, y + "-" + q;
    assert x == s[..|x|] == t[..|y|] == y;
    assert p == s[|x| + 1..] == t[|y| + 1..] == q;
  }

  function Number(sequence: nat): string { Padded(Decimal(sequence), 12) }

  lemma NumberValue(sequence: nat)
    ensures AllDigits(Number(sequence)) && Value(Number(sequence)) == sequence
  {
    DecimalValue(sequence);
    PaddedValue(Decimal(sequence), 12);
  }

  /** A file name determines the sequence and the hash prefix, so seals of different
      sequences never share a file and a later one cannot overwrite an earlier one. */
  lemma FilenameInjective(a: nat, hashA: string, b: nat, hashB: string)
    requires |hashA| >= 16 && |hashB| >= 16
    ensures Filename(a, hashA) == Filename(b, hashB) <==> a == b && hashA[..16] == hashB[..16]
  {
    if Filename(a, hashA) == Filename(b, hashB) {
      NumberValue(a);
      NumberValue(b);
      FilenameShape(a, hashA);
      FilenameShape(b, hashB);
      DigitsBeforeDash(Number(a), Number(b), hashA[..16] + ".json", hashB[..16] + ".json");
      SamePrefix(hashA[..16], hashB[..16], ".json");
    }
  }

  lemma FilenameShape(sequence: nat, hash: string)
    requires |hash| >= 16
    ensures Filename(sequence, hash) == Number(sequence) + "-" + (hash[..16] + ".json")
  {
  }

  lemma SamePrefix(p: string, q: string, tail: string)
    requires |p| == |q| && p + tail == q + tail
    ensures p == q
  {
    assert p == (p + tail)[..|p|] == (q + tail)[..|q|] == q;
  }

  // ---- loading -------------------------------------------------------------

  /** A file of the checkpoint directory; `None` when it cannot be read or parsed. */
  datatype Entry = Entry(name: string, content: Option<Checkpoint>)

  datatype LoadError = Unreadable | Incoherent | SealMismatch

  /** The name must be the seal of the content. `hash` stands for the digest. */
  function Load(e: Entry, hash: Checkpoint -> string): Result<Checkpoint, LoadError>
    requires forall c :: |hash(c)| >= 16
  {
    if e.content.None? then Err(Unreadable)
    else if !e.content.value.IdentityCoherent() then Err(Incoherent)
    else if e.name != Filename(e.content.value.createdAtSequence, hash(e.content.value)) then Err(SealMismatch)
    else Ok(e.content.value)
  }

  predicate IsJson(e: Entry) { |e.name| > 5 && e.name[|e.name| - 5..] == ".json" }

  /** The newest of the loaded checkpoints: the first one of highest sequence. */
  function Newest(cs: seq<Checkpoint>): (c: Option<Checkpoint>)
    ensures c.None? <==> cs == []
    ensures c.Some? ==> c.value in cs && forall d | d in cs :: d.createdAtSequence <= c.value.createdAtSequence
  {
    if cs == [] then None
    else
      var last := cs[|cs| - 1];
      var before := Newest(cs[..|cs| - 1]);
      if before.None? || last.createdAtSequence > before.value.createdAtSequence then Some(last) else before
  }

  /** The checkpoints of the `.json` files, in directory order, or the first error. */
  function LoadAll(entries: seq<Entry>, hash: Checkpoint -> string): Result<seq<Checkpoint>, LoadError>
    requires forall c :: |hash(c)| >= 16
  {
    if entries == [] then Ok([])
    else
      var e := entries[|entries| - 1];
      match LoadAll(entries[..|entries| - 1], hash)
      case Err(error) => Err(error)
      case Ok(cs) =>
        if !IsJson(e) then Ok(cs)
        else
          match Load(e, hash)
          case Err(error) => Err(error)
          case Ok(c) => Ok(cs + [c])
  }

  method LatestCheckpoint(entries: seq<Entry>, hash: Checkpoint -> string) returns (r: Result<Option<Checkpoint>, LoadError>)
    requires forall c :: |hash(c)| >= 16
    ensures r == Latest(entries, hash)
  {
    var latest: Option<Checkpoint> := None;
    for i := 0 to |entries|
      invariant LoadAll(entries[..i], hash).Ok? && Newest(LoadAll(entries[..i], hash).value) == latest
    {
      assert entries[..i + 1][..i] == entries[..i];
      var entry := entries[i];
      if IsJson(entry) {
        var loaded := Load(entry, hash);
        if loaded.Err? {
          FirstErrorStands(entries, i + 1, hash);
          return Err(loaded.error);
        }
        var c := loaded.value;
        var cs := LoadAll(entries[..i], hash).value;
        assert (cs + [c])[..|cs|] == cs;
        if latest.None? || c.createdAtSequence > latest.value.createdAtSequence {
          latest := Some(c);
        }
      }
    }
    assert entries[..|entries|] == entries;
    r := Ok(latest);
  }

  lemma {:induction false} FirstErrorStands(entries: seq<Entry>, n: nat, hash: Checkpoint -> string)
    requires forall c :: |hash(c)| >= 16
    requires n <= |entries| && LoadAll(entries[..n], hash).Err?
    ensures LoadAll(entries, hash) == LoadAll(entries[..n], hash)
  {
    if n == |entries| {
      assert entries[..n] == entries;
    } else {
      var shorter := entries[..|entries| - 1];
      assert shorter[..n] == entries[..n];
      FirstErrorStands(shorter, n, hash);
    }
  }

  // ---- directory order does not matter -------------------------------------

  ghost predicate UniqueNewest(cs: seq<Checkpoint>) {
    forall c, d | c in cs && d in cs && IsNewest(cs, c) && IsNewest(cs, d) :: c == d
  }

  ghost predicate IsNewest(cs: seq<Checkpoint>, c: Checkpoint) {
    forall d | d in cs :: d.createdAtSequence <= c.createdAtSequence
  }

  /** The result is the same in every directory order exactly when the highest
      sequence belongs to one checkpoint. */
  lemma {:induction false} OrderIndependentIff(cs: seq<Checkpoint>)
    ensures (forall p: seq<Checkpoint> | multiset(p) == multiset(cs) :: Newest(p) == Newest(cs)) <==> UniqueNewest(cs)
  {
    if UniqueNewest(cs) {
      forall p: seq<Checkpoint> | multiset(p) == multiset(cs)
        ensures Newest(p) == Newest(cs)
      {
        UniqueNewestStands(cs, p);
      }
    } else {
      var c, d :| c in cs && d in cs && IsNewest(cs, c) && IsNewest(cs, d) && c != d;
      var pc := MoveToFront(cs, c);
      var pd := MoveToFront(cs, d);
      NewestAtFront(pc);
      NewestAtFront(pd);
    }
  }

  lemma UniqueNewestStands(cs: seq<Checkpoint>, p: seq<Checkpoint>)
    requires UniqueNewest(cs) && multiset(p) == multiset(cs)
    ensures Newest(p) == Newest(cs)
  {
    SameMembers(p, cs);
    if cs != [] {
      var c, d := Newest(cs).value, Newest(p).value;
      assert c in cs && d in p && d in cs;
      assert IsNewest(cs, c) && IsNewest(cs, d);
    }
  }

  lemma SameMembers(p: seq<Checkpoint>, q: seq<Checkpoint>)
    requires multiset(p) == multiset(q)
    ensures |p| == |q| && forall c :: c in p <==> c in q
  {
    assert |p| == |multiset(p)| == |multiset(q)| == |q|;
    assert forall c :: c in p <==> c in multiset(p);
    assert forall c :: c in q <==> c in multiset(q);
  }

  lemma MoveToFront(cs: seq<Checkpoint>, c: Checkpoint) returns (p: seq<Checkpoint>)
    requires c in cs && IsNewest(cs, c)
    ensures multiset(p) == multiset(cs) && p != [] && p[0] == c && IsNewest(p, c)
  {
    var i :| 0 <= i < |cs| && cs[i] == c;
    p := [c] + cs[..i] + cs[i + 1..];
    assert cs == cs[..i] + [c] + cs[i + 1..];
    assert forall d | d in p :: d in cs;
  }

  lemma {:induction false} NewestAtFront(p: seq<Checkpoint>)
    requires p != [] && IsNewest(p, p[0])
    ensures Newest(p) == Some(p[0])
  {
    if |p| > 1 {
      var shorter := p[..|p| - 1];
      assert shorter[0] == p[0] && forall d | d in shorter :: d in p;
      NewestAtFront(shorter);
    }
  }

  /** On a directory that holds the seals of a resume chain, in any order, the newest
      checkpoint is the last one sealed. */
  lemma LatestIsLastSeal(graph: WorkflowGraph, seals: seq<Checkpoint>, floor: nat, p: seq<Checkpoint>)
    requires seals != [] && SealsAfter(graph, seals, floor) && multiset(p) == multiset(seals)
    ensures Newest(p) == Some(seals[|seals| - 1])
  {
    SameMembers(p, seals);
    var last := seals[|seals| - 1];
    assert last in p;
    var c := Newest(p).value;
    var i :| 0 <= i < |seals| && seals[i] == c;
    assert i < |seals| - 1 ==> seals[i].createdAtSequence < last.createdAtSequence;
  }

  // ---- what is loaded ------------------------------------------------------

  /** A number in a name has at least twelve places, and exactly twelve below 10^12. */
  lemma NumberWidth(sequence: nat)
    ensures AllDigits(Number(sequence)) && Value(Number(sequence)) == sequence
    ensures |Number(sequence)| >= 12 && (sequence < 1_000_000_000_000 ==> |Number(sequence)| == 12)
  {
    NumberValue(sequence);
    PaddedWidth(Decimal(sequence), 12);
    if sequence < 1_000_000_000_000 {
      DecimalWidth(sequence, 12, 1_000_000_000_000);
    }
  }

  lemma {:induction false} PaddedWidth(s: string, width: nat)
    ensures |Padded(s, width)| == Max(|s|, width)
    decreases SatSub(width, |s|)
  {
    if |s| < width {
      PaddedWidth(['0'] + s, width);
    }
  }

  lemma {:induction false} DecimalWidth(n: nat, k: nat, bound: nat)
    requires k >= 1 && bound == Power10(k) && n < bound
    ensures |Decimal(n)| <= k
    decreases k
  {
    if n >= 10 {
      assert k >= 2 by {
        assert Power10(1) == 10;
      }
      assert bound == 10 * Power10(k - 1);
      DecimalWidth(n / 10, k - 1, Power10(k - 1));
    }
  }

  function Power10(k: nat): nat { if k == 0 then 1 else 10 * Power10(k - 1) }

  /** The files that are looked at: a name and the extension. */
  lemma IsJsonIff(e: Entry)
    ensures IsJson(e) <==> exists stem: string :: stem != "" && e.name == stem + ".json"
  {
    if IsJson(e) {
      assert e.name == e.name[..|e.name| - 5] + ".json";
    }
    if stem: string :| stem != "" && e.name == stem + ".json" {
      assert e.name[|stem|..] == ".json";
    }
  }

  /** What stands in a file under the name of another checkpoint is loaded if and only if
      it is coherent, of the same sequence, and its hash begins with the same 16
      characters. */
  lemma TamperedIsRefused(c: Checkpoint, d: Checkpoint, hash: Checkpoint -> string)
    requires forall c :: |hash(c)| >= 16
    ensures Load(Entry(Filename(c.createdAtSequence, hash(c)), Some(d)), hash) == Ok(d)
            <==> && d.runId == d.state.runId && d.candidateId == d.state.candidateId
                 && d.createdAtSequence == c.createdAtSequence && hash(d)[..16] == hash(c)[..16]
  {
    FilenameInjective(c.createdAtSequence, hash(c), d.createdAtSequence, hash(d));
  }

  /** The `i`th file holds `c`, which no JSON file exceeds and no earlier one equals in
      sequence. */
  ghost predicate FirstHighest(entries: seq<Entry>, i: nat, c: Checkpoint) {
    && i < |entries| && IsJson(entries[i]) && entries[i].content == Some(c)
    && forall j | 0 <= j < |entries| && IsJson(entries[j]) ::
         entries[j].content.Some? && entries[j].content.value.createdAtSequence <= c.createdAtSequence
         && (j < i ==> entries[j].content.value.createdAtSequence < c.createdAtSequence)
  }

  /** A directory answers if and only if every JSON file of it loads, and then with the
      first checkpoint of highest sequence, if it holds any. */
  lemma LatestIff(entries: seq<Entry>, hash: Checkpoint -> string)
    requires forall c :: |hash(c)| >= 16
    ensures Latest(entries, hash).Ok? <==> forall i | 0 <= i < |entries| && IsJson(entries[i]) :: Load(entries[i], hash).Ok?
    ensures Latest(entries, hash) == Ok(None) ==> forall i | 0 <= i < |entries| :: !IsJson(entries[i])
    ensures Latest(entries, hash).Ok? && Latest(entries, hash).value.Some? ==>
              exists i: nat :: FirstHighest(entries, i, Latest(entries, hash).value.value)
  {
    LoadedIff(entries, hash);
    if LoadAll(entries, hash).Ok? {
      NewestLoaded(entries, hash);
    }
  }

  lemma {:induction false} LoadedIff(entries: seq<Entry>, hash: Checkpoint -> string)
    requires forall c :: |hash(c)| >= 16
    ensures LoadAll(entries, hash).Ok? <==> forall i | 0 <= i < |entries| && IsJson(entries[i]) :: Load(entries[i], hash).Ok?
  {
    if entries != [] {
      var front := entries[..|entries| - 1];
      LoadedIff(front, hash);
      assert forall i | 0 <= i < |front| :: front[i] == entries[i];
    }
  }

  lemma {:induction false} NewestLoaded(entries: seq<Entry>, hash: Checkpoint -> string)
    requires forall c :: |hash(c)| >= 16
    requires LoadAll(entries, hash).Ok?
    ensures var c := Newest(LoadAll(entries, hash).value);
            && (c.None? ==> forall i | 0 <= i < |entries| :: !IsJson(entries[i]))
            && (c.Some? ==> exists i: nat :: FirstHighest(entries, i, c.value))
  {
    if entries != [] {
      var front, e := entries[..|entries| - 1], entries[|entries| - 1];
      NewestLoaded(front, hash);
      var before := LoadAll(front, hash).value;
      if IsJson(e) {
        var c := Load(e, hash).value;
        assert (before + [c])[..|before|] == before;
        NewestNext(front, e, c, Newest(before));
      } else {
        SkippedNext(front, e, Newest(before));
      }
      assert entries == front + [e];
    }
  }

  lemma NewestNext(front: seq<Entry>, e: Entry, c: Checkpoint, before: Option<Checkpoint>)
    requires IsJson(e) && e.content == Some(c)
    requires before.None? ==> forall i | 0 <= i < |front| :: !IsJson(front[i])
    requires before.Some? ==> exists i: nat :: FirstHighest(front, i, before.value)
    ensures var newest := if before.None? || c.createdAtSequence > before.value.createdAtSequence then c else before.value;
            exists i: nat :: FirstHighest(front + [e], i, newest)
  {
    if before.None? || c.createdAtSequence > before.value.createdAtSequence {
      assert FirstHighest(front + [e], |front|, c);
    } else {
      var i: nat :| FirstHighest(front, i, before.value);
      assert FirstHighest(front + [e], i, before.value);
    }
  }

  lemma SkippedNext(front: seq<Entry>, e: Entry, before: Option<Checkpoint>)
    requires !IsJson(e)
    requires before.Some? ==> exists i: nat :: FirstHighest(front, i, before.value)
    ensures before.Some? ==> exists i: nat :: FirstHighest(front + [e], i, before.value)
  {
    if before.Some? {
      var i: nat :| FirstHighest(front, i, before.value);
      assert FirstHighest(front + [e], i, before.value);
    }
  }

  // ---- directories of resume chains ----------------------------------------

  function SealEntry(c: Checkpoint, hash: Checkpoint -> string): Entry
    requires forall c :: |hash(c)| >= 16
  {
    Entry(Filename(c.createdAtSequence, hash(c)), Some(c))
  }

  function Part(e: Entry): seq<Checkpoint> { if IsJson(e) && e.content.Some? then [e.content.value] else [] }

  function PartFn(): Entry -> seq<Checkpoint> { (e: Entry) => Part(e) }

  /** The checkpoints in the `.json` files, in directory order. */
  function Contents(entries: seq<Entry>): seq<Checkpoint> { Gather(entries, PartFn()) }

  /** The directory holds exactly these seals, in any order, among any other files that
      are not JSON. */
  ghost predicate Stores(entries: seq<Entry>, seals: seq<Checkpoint>, hash: Checkpoint -> string)
    requires forall c :: |hash(c)| >= 16
  {
    && (forall i | 0 <= i < |entries| && IsJson(entries[i]) ::
          entries[i].content.Some? && entries[i] == SealEntry(entries[i].content.value, hash))
    && multiset(Contents(entries)) == multiset(seals)
  }

  /** What `latest_checkpoint` answers for a directory. */
  function Latest(entries: seq<Entry>, hash: Checkpoint -> string): Result<Option<Checkpoint>, LoadError>
    requires forall c :: |hash(c)| >= 16
  {
    match LoadAll(entries, hash)
    case Err(e) => Err(e)
    case Ok(cs) => Ok(Newest(cs))
  }

  lemma {:induction false} SealedDirectoryLoads(entries: seq<Entry>, hash: Checkpoint -> string)
    requires forall c :: |hash(c)| >= 16
    requires forall i | 0 <= i < |entries| && IsJson(entries[i]) ::
               && entries[i].content.Some? && entries[i] == SealEntry(entries[i].content.value, hash)
               && entries[i].content.value.IdentityCoherent()
    ensures LoadAll(entries, hash) == Ok(Contents(entries))
  {
    if entries != [] {
      var front, e := entries[..|entries| - 1], entries[|entries| - 1];
      assert forall i | 0 <= i < |front| :: front[i] == entries[i];
      SealedDirectoryLoads(front, hash);
      assert IsJson(entries[|entries| - 1]) ==> Load(e, hash) == Ok(e.content.value);
      assert Contents(front) + [] == Contents(front);
    }
  }

  lemma {:induction false} ContentsOf(entries: seq<Entry>, i: nat)
    requires i < |entries| && IsJson(entries[i]) && entries[i].content.Some?
    ensures entries[i].content.value in Contents(entries)
  {
    if i < |entries| - 1 {
      ContentsOf(entries[..|entries| - 1], i);
    }
  }

  /** On a directory that stores the seals of a resume chain, in any order and among any
      other files, the answer is the last seal. */
  lemma LatestOfDirectory(graph: WorkflowGraph, seals: seq<Checkpoint>, floor: nat, entries: seq<Entry>, hash: Checkpoint -> string)
    requires forall c :: |hash(c)| >= 16
    requires seals != [] && SealsAfter(graph, seals, floor) && Stores(entries, seals, hash)
    ensures Latest(entries, hash) == Ok(Some(seals[|seals| - 1]))
  {
    SameMembers(Contents(entries), seals);
    forall i | 0 <= i < |entries| && IsJson(entries[i]) ensures entries[i].content.value.IdentityCoherent() {
      ContentsOf(entries, i);
      var j :| 0 <= j < |seals| && seals[j] == entries[i].content.value;
      assert Bounded(graph, seals[j]);
    }
    SealedDirectoryLoads(entries, hash);
    LatestIsLastSeal(graph, seals, floor, Contents(entries));
  }

  /** Sealing every checkpoint under its own name stores exactly these. */
  lemma WrittenSealsAreStored(seals: seq<Checkpoint>, hash: Checkpoint -> string)
    requires forall c :: |hash(c)| >= 16
    ensures Stores(Written(seals, hash), seals, hash)
  {
    WrittenContents(seals, hash);
    var entries := Written(seals, hash);
    forall i | 0 <= i < |entries|
      ensures entries[i].content.Some? && entries[i] == SealEntry(entries[i].content.value, hash)
    {
      assert entries[i] == SealEntry(seals[i], hash);
    }
  }

  function Written(seals: seq<Checkpoint>, hash: Checkpoint -> string): seq<Entry>
    requires forall c :: |hash(c)| >= 16
  {
    seq(|seals|, i requires 0 <= i < |seals| => SealEntry(seals[i], hash))
  }

  lemma {:induction false} WrittenContents(seals: seq<Checkpoint>, hash: Checkpoint -> string)
    requires forall c :: |hash(c)| >= 16
    ensures Contents(Written(seals, hash)) == seals
  {
    if seals != [] {
      var front, c := seals[..|seals| - 1], seals[|seals| - 1];
      WrittenContents(front, hash);
      SealNameIsJson(c, hash);
      var entries := Written(seals, hash);
      assert entries[..|entries| - 1] == Written(front, hash) && entries[|entries| - 1] == SealEntry(c, hash);
      assert seals == front + [c];
    }
  }

  lemma SealNameIsJson(c: Checkpoint, hash: Checkpoint -> string)
    requires forall c :: |hash(c)| >= 16
    ensures IsJson(SealEntry(c, hash))
  {
    var name := Filename(c.createdAtSequence, hash(c));
    assert name[|name| - 5..] == ".json";
  }

  /** A chain of processes, each of which resumes what it finds on disk; `list` says in
      which order, and among which other files, a directory shows its seals. */
  ghost function DiskChain(graph: WorkflowGraph, hash: Checkpoint -> string, list: seq<Checkpoint> -> seq<Entry>, seals: seq<Checkpoint>,
                           attempts: seq<Attempt>): seq<Checkpoint>
    requires forall c :: |hash(c)| >= 16
    requires forall i | 0 <= i < |attempts| :: attempts[i].Able(graph)
    decreases attempts
  {
    if attempts == [] then seals
    else
      var a := attempts[0];
      assert a.Able(graph);
      match Latest(list(seals), hash)
      case Ok(Some(c)) =>
        DiskChain(graph, hash, list, seals + Resume(graph, a.step, a.ledger, c, a.caller).seals, attempts[1..])
      case _ => DiskChain(graph, hash, list, seals, attempts[1..])
  }

  /** Resuming from disk is resuming the newest seal, whatever order directories are
      listed in; so sequences strictly increase and the transition limit holds along
      every chain of crashed processes. */
  lemma {:induction false} DiskChainIsChain(graph: WorkflowGraph, hash: Checkpoint -> string, list: seq<Checkpoint> -> seq<Entry>,
                                            seals: seq<Checkpoint>, attempts: seq<Attempt>, floor: nat)
    requires forall c :: |hash(c)| >= 16
    requires forall s :: Stores(list(s), s, hash)
    requires seals != [] && SealsAfter(graph, seals, floor) && forall i | 0 <= i < |attempts| :: attempts[i].Able(graph)
    ensures DiskChain(graph, hash, list, seals, attempts) == Chain(graph, seals, attempts)
    ensures SealsAfter(graph, DiskChain(graph, hash, list, seals, attempts), floor)
    decreases attempts
  {
    if attempts != [] {
      var a := attempts[0];
      var c := seals[|seals| - 1];
      assert a.Able(graph);
      LatestOfDirectory(graph, seals, floor, list(seals), hash);
      ResumeSealsAscend(graph, a, c);
      var more := Resume(graph, a.step, a.ledger, c, a.caller).seals;
      GrownAscends(graph, seals, more, floor);
      DiskChainIsChain(graph, hash, list, seals + more, attempts[1..], floor);
    }
  }

  // ---- the production driver -----------------------------------------------

  /** What the collaborators of the driver answer for one stage. */
  datatype Collaborators = Collaborators(
    model: Result<StageOutcome, string>, authorizedTools: set<string>, toolRun: CheckStatus,
    policy: Result<bool, string>, human: Result<bool, string>, report: Result<VerificationReport, string>)

  function Plain(passed: bool): StageOutcome { StageOutcome(passed, None, [], [], None) }

  function GateOutcome(r: Result<bool, string>): Result<StageOutcome, string> {
    if r.Ok? then Ok(Plain(r.value)) else Err(r.error)
  }

  /** The dispatch by stage kind. */
  function DispatchStage(id: StageId, d: StageDefinition, c: Collaborators): Result<StageOutcome, string> {
    match d.kind
    case DeterministicTransform => Ok(Plain(true))
    case ParallelFanOut => Ok(Plain(true))
    case Aggregation => Ok(Plain(true))
    case ModelInvocation =>
      if d.modelRole.None? then Err("model stage has no role")
      else if c.model.Err? then Err(c.model.error)
      else if c.model.value.verification.Some? then Err("model stage may not attach verification")
      else Ok(c.model.value)
    case ToolInvocation =>
      if d.tool.None? then Err("tool stage has no tool")
      else if d.tool.value !in c.authorizedTools then Err("unauthorized tool")
      else if c.toolRun == InfrastructureError then Err("tool infrastructure failure")
      else if c.toolRun == Passed then Ok(Plain(true))
      else Ok(Plain(false).(failures := [FailureEvidence(Tool, d.tool.value + "_failed", false, id, true)]))
    case PolicyGate => GateOutcome(c.policy)
    case HumanApprovalGate => GateOutcome(c.human)
    case VerificationGate =>
      if !d.trusted then Err("verification gate is not marked trusted")
      else if c.report.Err? then Err(c.report.error)
      else Ok(Plain(c.report.value.passed).(verification := Some(c.report.value)))
    case TerminalSuccess => Err("terminal stage is not executable")
    case TerminalFailure => Err("terminal stage is not executable")
  }

  /** Whatever models, tools and gates answer, a report is attached exactly at a
      trusted verification gate, so the executor's guard against other reports and
      against missing ones never fires with this driver. */
  lemma OnlyTrustedGatesVerify(state: RunState, task: Task, c: Collaborators)
    requires DispatchStage(task.id, task.definition, c).Ok?
    ensures var o := DispatchStage(task.id, task.definition, c).value;
            && (o.verification.Some? <==> task.definition.kind.VerificationGate?)
            && (o.verification.Some? ==> task.definition.trusted && c.report == Ok(o.verification.value))
            && (var adopted := AdoptReport(state, task, o.verification);
                adopted.Err? ==> adopted.error.InvalidReport? || adopted.error.ReportIdentityMismatch?)
  {
  }

  /** When a stage answers, whether it passes, and what else its outcome holds: only a
      model brings a plan or patches, and only a tool that failed brings evidence, one
      piece against the candidate. */
  lemma DispatchAnswers(id: StageId, d: StageDefinition, c: Collaborators)
    ensures var r := DispatchStage(id, d, c);
            && (r.Ok? <==> || d.kind in {DeterministicTransform, ParallelFanOut, Aggregation}
                           || (d.kind == ModelInvocation && d.modelRole.Some? && c.model.Ok? && c.model.value.verification.None?)
                           || (d.kind == ToolInvocation && d.tool.Some? && d.tool.value in c.authorizedTools && c.toolRun != InfrastructureError)
                           || (d.kind == PolicyGate && c.policy.Ok?) || (d.kind == HumanApprovalGate && c.human.Ok?)
                           || (d.kind == VerificationGate && d.trusted && c.report.Ok?))
            && (r.Ok? && d.kind == ModelInvocation ==> r == c.model)
            && (r.Ok? && d.kind != ModelInvocation ==>
                  && r.value.plan.None? && r.value.patches == []
                  && (r.value.passed <==> || d.kind in {DeterministicTransform, ParallelFanOut, Aggregation}
                                          || (d.kind == ToolInvocation && c.toolRun == Passed)
                                          || (d.kind == PolicyGate && c.policy == Ok(true)) || (d.kind == HumanApprovalGate && c.human == Ok(true))
                                          || (d.kind == VerificationGate && c.report.value.passed))
                  && r.value.failures == (if d.kind == ToolInvocation && c.toolRun != Passed
                                          then [FailureEvidence(Tool, d.tool.value + "_failed", false, id, true)] else []))
  {
  }
}
