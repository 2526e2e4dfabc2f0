/** What is hashed for the identity of a source archive: every file's name and content, each behind its length. */
module Digest {
  import opened Wrappers
  import opened KeyOrder

  newtype byte = x: int | 0 <= x < 256

  type Bytes = seq<byte>

  /** A dictionary of files: its keys in the order they were put in, and their contents. */
  datatype Files = Files(order: seq<string>, contents: map<string, Bytes>)

  predicate FilesOk(f: Files) {
    && (forall k | k in f.order :: k in f.contents) && (forall k | k in f.contents :: k in f.order)
    && forall i, j | 0 <= i < j < |f.order| :: f.order[i] != f.order[j]
  }

  // ----- UTF-8

  function EncodeChar(c: char): Bytes {
    var n := c as int;
    if n < 0x80 then [n as byte]
    else if n < 0x800 then [(0xC0 + n / 64) as byte, (0x80 + n % 64) as byte]
    else if n < 0x10000 then [(0xE0 + n / 4096) as byte, (0x80 + n / 64 % 64) as byte, (0x80 + n % 64) as byte]
    else [(0xF0 + n / 262144) as byte, (0x80 + n / 4096 % 64) as byte, (0x80 + n / 64 % 64) as byte, (0x80 + n % 64) as byte]
  }

  function EncodeText(s: string): Bytes {
    if s == "" then [] else EncodeChar(s[0]) + EncodeText(s[1..])
  }

  /** How many bytes the character takes whose encoding starts with this one. */
  function Span(first: byte): nat {
    if first < 0xC0 then 1 else if first < 0xE0 then 2 else if first < 0xF0 then 3 else 4
  }

  lemma EncodeCharSpan(c: char)
    ensures |EncodeChar(c)| == Span(EncodeChar(c)[0])
  {
  }

  /** The character a code starts with, by the bits its bytes carry. */
  function Code(b: Bytes): int
    requires b != [] && |b| == Span(b[0])
  {
    match |b|
    case 1 => b[0] as int
    case 2 => (b[0] as int - 0xC0) * 64 + (b[1] as int - 0x80)
    case 3 => (b[0] as int - 0xE0) * 4096 + (b[1] as int - 0x80) * 64 + (b[2] as int - 0x80)
    case _ => (b[0] as int - 0xF0) * 262144 + (b[1] as int - 0x80) * 4096 + (b[2] as int - 0x80) * 64 + (b[3] as int - 0x80)
  }

  lemma CodeOfEncodeChar(c: char)
    ensures |EncodeChar(c)| == Span(EncodeChar(c)[0]) && Code(EncodeChar(c)) == c as int
  {
    var n := c as int;
    EncodeCharSpan(c);
    assert n / 4096 == n / 64 / 64 && n / 262144 == n / 64 / 64 / 64;
  }

  lemma EncodeCharInjective(c: char, d: char)
    requires EncodeChar(c) == EncodeChar(d)
    ensures c == d
  {
    CodeOfEncodeChar(c);
    CodeOfEncodeChar(d);
  }

  lemma EncodeTextEmpty(s: string)
    ensures EncodeText(s) == [] <==> s == ""
  {
    if s != "" {
      EncodeCharSpan(s[0]);
    }
  }

  /** Names with equal encodings are equal. */
  lemma {:induction false} EncodeTextInjective(s: string, t: string)
    requires EncodeText(s) == EncodeText(t)
    ensures s == t
  {
    EncodeTextEmpty(s);
    EncodeTextEmpty(t);
    if s != "" {
      var a, b := EncodeChar(s[0]), EncodeChar(t[0]);
      var all := EncodeText(s);
      EncodeCharSpan(s[0]);
      EncodeCharSpan(t[0]);
      assert all[0] == a[0] == b[0];
      assert a == all[..|a|] && b == all[..|b|];
      EncodeCharInjective(s[0], t[0]);
      assert EncodeText(s[1..]) == all[|a|..] && EncodeText(t[1..]) == all[|b|..];
      EncodeTextInjective(s[1..], t[1..]);
      assert s == [s[0]] + s[1..] && t == [t[0]] + t[1..];
    }
  }

  // ----- lengths

  function Pow256(k: nat): nat {
    if k == 0 then 1 else 256 * Pow256(k - 1)
  }

  /** The last `k` base-256 digits of a number, most significant first. */
  function BigEndian(n: nat, k: nat): (r: Bytes)
    ensures |r| == k
  {
    if k == 0 then [] else BigEndian(n / 256, k - 1) + [(n % 256) as byte]
  }

  function Value(b: Bytes): nat {
    if b == [] then 0 else 256 * Value(b[..|b| - 1]) + b[|b| - 1] as int
  }

  lemma {:induction false} ValueOfBigEndian(n: nat, k: nat)
    requires n < Pow256(k)
    ensures Value(BigEndian(n, k)) == n
  {
    if k > 0 {
      ValueOfBigEndian(n / 256, k - 1);
      assert BigEndian(n, k)[..k - 1] == BigEndian(n / 256, k - 1);
    }
  }

  const LIMIT := 0x1_0000_0000_0000_0000

  lemma LimitIsPow()
    ensures Pow256(8) == LIMIT
  {
    assert Pow256(4) == 0x1_0000_0000;
    assert Pow256(6) == 0x1_0000_0000_0000;
  }

  // ----- the preimage

  function Frame(b: Bytes): Bytes {
    BigEndian(|b|, 8) + b
  }

  /** Whether both lengths fit into eight bytes. */
  predicate Fits(name: string, content: Bytes) {
    |EncodeText(name)| < LIMIT && |content| < LIMIT
  }

  function FileBytes(name: string, content: Bytes): Bytes {
    Frame(EncodeText(name)) + Frame(content)
  }

  function Concat(parts: seq<Bytes>): Bytes {
    if parts == [] then [] else Concat(parts[..|parts| - 1]) + parts[|parts| - 1]
  }

  function Parts(names: seq<string>, contents: map<string, Bytes>): seq<Bytes>
    requires forall k | k in names :: k in contents
  {
    seq(|names|, i requires 0 <= i < |names| => FileBytes(names[i], contents[names[i]]))
  }

  function Framed(names: seq<string>, contents: map<string, Bytes>): Bytes
    requires forall k | k in names :: k in contents
  {
    Concat(Parts(names, contents))
  }

  lemma SortKeeps(f: Files)
    ensures forall k :: k in Sort(f.order) <==> k in f.order
  {
    SameMembers(Sort(f.order), f.order);
  }

  predicate AllFit(f: Files) {
    forall k | k in f.contents :: Fits(k, f.contents[k])
  }

  /** The hashed bytes; `None` if a length does not fit. */
  function Preimage(f: Files): Option<Bytes>
    requires FilesOk(f)
  {
    SortKeeps(f);
    if AllFit(f) then Some(Framed(Sort(f.order), f.contents)) else None
  }

  /** Feeds one length and what it measures; `None` where the length does not fit into eight bytes. */
  method Feed(fed: Bytes, b: Bytes) returns (r: Option<Bytes>)
    ensures r == if |b| < LIMIT then Some(fed + Frame(b)) else None
  {
    if |b| >= LIMIT {
      return None;
    }
    var measured := fed + BigEndian(|b|, 8);
    assert measured + b == fed + Frame(b);
    return Some(measured + b);
  }

  /** Feeds one file. */
  method FeedFile(fed: Bytes, name: string, content: Bytes) returns (r: Option<Bytes>)
    ensures r == if Fits(name, content) then Some(fed + FileBytes(name, content)) else None
  {
    r := Feed(fed, EncodeText(name));
    if r.Some? {
      var named := r.value;
      r := Feed(named, content);
      assert named + Frame(content) == fed + FileBytes(name, content);
    }
  }

  lemma ConcatNext(parts: seq<Bytes>, i: nat)
    requires i < |parts|
    ensures Concat(parts[..i + 1]) == Concat(parts[..i]) + parts[i]
  {
    assert parts[..i + 1][..i] == parts[..i] && parts[..i + 1][i] == parts[i];
  }

  /** The loop over the files: the concatenated pieces, `None` at the first that does not fit. */
  method FeedAll(names: seq<string>, contents: map<string, Bytes>) returns (r: Option<Bytes>)
    requires forall k | k in names :: k in contents
    ensures r.Some? <==> forall i | 0 <= i < |names| :: Fits(names[i], contents[names[i]])
    ensures r.Some? ==> r.value == Framed(names, contents)
  {
    var fed: Bytes := [];
    ghost var parts := Parts(names, contents);
    for i := 0 to |names|
      invariant fed == Concat(parts[..i])
      invariant forall j | 0 <= j < i :: Fits(names[j], contents[names[j]])
    {
      var next := FeedFile(fed, names[i], contents[names[i]]);
      if next.None? {
        return None;
      }
      ConcatNext(parts, i);
      fed := next.value;
    }
    assert parts[..|names|] == parts;
    return Some(fed);
  }

  /** `_content_digest`: the hash is fed piece by piece and sees what `Preimage` says. */
  method ContentDigest(f: Files, sha256: Bytes -> Bytes) returns (r: Option<Bytes>)
    requires FilesOk(f)
    ensures r == if Preimage(f).Some? then Some(sha256(Preimage(f).value)) else None
  {
    var names := Sort(f.order);
    SortKeeps(f);
    var fed := FeedAll(names, f.contents);
    AllFitIff(f, names);
    r := if fed.Some? then Some(sha256(fed.value)) else None;
  }

  lemma AllFitIff(f: Files, names: seq<string>)
    requires (forall k | k in names :: k in f.contents) && (forall k | k in f.contents :: k in names)
    ensures AllFit(f) <==> forall i | 0 <= i < |names| :: Fits(names[i], f.contents[names[i]])
  {
    if forall i | 0 <= i < |names| :: Fits(names[i], f.contents[names[i]]) {
      forall k | k in f.contents
        ensures Fits(k, f.contents[k])
      {
        assert k in names;
      }
    }
  }

  // ----- reading it back

  /** The first frame of some bytes, and what follows it. */
  function TakeFrame(b: Bytes): Option<(Bytes, Bytes)> {
    if |b| < 8 then None
    else
      var n := Value(b[..8]);
      if |b| - 8 < n then None else Some((b[8..8 + n], b[8 + n..]))
  }

  lemma FrameRoundTrip(x: Bytes, rest: Bytes)
    requires |x| < LIMIT
    ensures TakeFrame(Frame(x) + rest) == Some((x, rest))
  {
    var b := Frame(x) + rest;
    LimitIsPow();
    ValueOfBigEndian(|x|, 8);
    assert b[..8] == BigEndian(|x|, 8);
    assert b[8..8 + |x|] == x && b[8 + |x|..] == rest;
  }

  /** The encoded names and contents in a preimage. */
  function Parse(b: Bytes): Option<seq<(Bytes, Bytes)>>
    decreases |b|
  {
    if b == [] then Some([])
    else
      var name :- TakeFrame(b);
      var content :- TakeFrame(name.1);
      var rest :- Parse(content.1);
      Some([(name.0, content.0)] + rest)
  }

  function Pairs(names: seq<string>, contents: map<string, Bytes>): seq<(Bytes, Bytes)>
    requires forall k | k in names :: k in contents
  {
    seq(|names|, i requires 0 <= i < |names| => (EncodeText(names[i]), contents[names[i]]))
  }

  lemma {:induction false} ConcatFirst(parts: seq<Bytes>)
    requires parts != []
    ensures Concat(parts) == parts[0] + Concat(parts[1..])
  {
    var n := |parts| - 1;
    if n == 0 {
      assert parts[..0] == [] && parts[1..] == [];
    } else {
      ConcatFirst(parts[..n]);
      assert parts[..n][1..] == parts[1..][..n - 1];
      ConcatLast(parts);
      ConcatLast(parts[1..]);
      Reassociate(parts[0], Concat(parts[..n][1..]), parts[n]);
    }
  }

  lemma ConcatLast(parts: seq<Bytes>)
    requires parts != []
    ensures Concat(parts) == Concat(parts[..|parts| - 1]) + parts[|parts| - 1]
  {
  }

  lemma Reassociate(a: Bytes, b: Bytes, c: Bytes)
    ensures (a + b) + c == a + (b + c)
  {
  }

  lemma FramedFirst(names: seq<string>, contents: map<string, Bytes>)
    requires names != [] && forall k | k in names :: k in contents
    ensures Framed(names, contents) == FileBytes(names[0], contents[names[0]]) + Framed(names[1..], contents)
  {
    ConcatFirst(Parts(names, contents));
    assert Parts(names, contents)[1..] == Parts(names[1..], contents);
  }

  lemma ParseTaken(b: Bytes, encoded: Bytes, tail: Bytes, content: Bytes, rest: Bytes)
    requires TakeFrame(b) == Some((encoded, tail)) && TakeFrame(tail) == Some((content, rest)) && Parse(rest).Some?
    ensures Parse(b) == Some([(encoded, content)] + Parse(rest).value)
  {
  }

  lemma FileSplit(name: string, content: Bytes, rest: Bytes)
    requires Fits(name, content)
    ensures FileBytes(name, content) + rest == Frame(EncodeText(name)) + (Frame(content) + rest)
  {
  }

  lemma ParseStep(name: string, content: Bytes, rest: Bytes)
    requires Fits(name, content) && Parse(rest).Some?
    ensures Parse(FileBytes(name, content) + rest) == Some([(EncodeText(name), content)] + Parse(rest).value)
  {
    var encoded, tail := EncodeText(name), Frame(content) + rest;
    FileSplit(name, content, rest);
    FrameRoundTrip(encoded, tail);
    FrameRoundTrip(content, rest);
    ParseTaken(Frame(encoded) + tail, encoded, tail, content, rest);
  }

  lemma PairsFirst(names: seq<string>, contents: map<string, Bytes>)
    requires names != [] && forall k | k in names :: k in contents
    ensures Pairs(names, contents) == [(EncodeText(names[0]), contents[names[0]])] + Pairs(names[1..], contents)
  {
  }

  predicate NamesFit(names: seq<string>, contents: map<string, Bytes>) {
    forall k | k in names :: k in contents && Fits(k, contents[k])
  }

  lemma {:induction false} ParseFramed(names: seq<string>, contents: map<string, Bytes>)
    requires NamesFit(names, contents)
    ensures Parse(Framed(names, contents)) == Some(Pairs(names, contents))
    decreases |names|
  {
    if names == [] {
      assert Parts(names, contents) == [] && Pairs(names, contents) == [];
    } else {
      var name, rest := names[0], Framed(names[1..], contents);
      assert name in names && NamesFit(names[1..], contents);
      FramedFirst(names, contents);
      ParseFramed(names[1..], contents);
      ParseStep(name, contents[name], rest);
      PairsFirst(names, contents);
    }
  }

  /** Parsed preimages that are equal come from equal lists of names with equal contents. */
  lemma PairsInjective(a: seq<string>, c: map<string, Bytes>, b: seq<string>, d: map<string, Bytes>)
    requires (forall k | k in a :: k in c) && (forall k | k in b :: k in d)
    requires Pairs(a, c) == Pairs(b, d)
    ensures a == b && forall k | k in a :: c[k] == d[k]
  {
    assert |a| == |Pairs(a, c)| == |Pairs(b, d)| == |b|;
    forall i | 0 <= i < |a|
      ensures a[i] == b[i] && c[a[i]] == d[a[i]]
    {
      assert Pairs(a, c)[i] == Pairs(b, d)[i];
      EncodeTextInjective(a[i], b[i]);
    }
  }

  lemma SameOrder(f: Files, g: Files)
    requires FilesOk(f) && FilesOk(g) && f.contents == g.contents
    ensures Sort(f.order) == Sort(g.order)
  {
    DistinctMultiset(f.order, g.order);
    SortForgetsOrder(f.order, g.order);
  }

  lemma DistinctMultiset(a: seq<string>, b: seq<string>)
    requires forall i, j | 0 <= i < j < |a| :: a[i] != a[j]
    requires forall i, j | 0 <= i < j < |b| :: b[i] != b[j]
    requires (forall k | k in a :: k in b) && (forall k | k in b :: k in a)
    ensures multiset(a) == multiset(b)
  {
    forall k
      ensures multiset(a)[k] == multiset(b)[k]
    {
      AtMostOnce(a, k);
      AtMostOnce(b, k);
      assert k in multiset(a) <==> k in a;
      assert k in multiset(b) <==> k in b;
    }
  }

  /** Two dictionaries of files have the same preimage exactly if they hold the same files, in whatever order
      these were put in. */
  lemma PreimageIff(f: Files, g: Files)
    requires FilesOk(f) && FilesOk(g) && AllFit(f) && AllFit(g)
    ensures Preimage(f) == Preimage(g) <==> f.contents == g.contents
  {
    SortKeeps(f);
    SortKeeps(g);
    if f.contents == g.contents {
      SameOrder(f, g);
    }
    if Preimage(f) == Preimage(g) {
      var a, b := Sort(f.order), Sort(g.order);
      ParseFramed(a, f.contents);
      ParseFramed(b, g.contents);
      PairsInjective(a, f.contents, b, g.contents);
      assert f.contents.Keys == g.contents.Keys;
      assert f.contents == g.contents;
    }
  }

  // ----- the layout

  /** The first four of some bytes as a number. */
  function Number4(b: Bytes): nat
    requires |b| >= 4
  {
    ((b[0] as int * 256 + b[1] as int) * 256 + b[2] as int) * 256 + b[3] as int
  }

  /** Eight bytes as a number, the first one most significant. */
  function Number(b: Bytes): nat
    requires |b| == 8
  {
    (((Number4(b) * 256 + b[4] as int) * 256 + b[5] as int) * 256 + b[6] as int) * 256 + b[7] as int
  }

  lemma NumberIsValue(b: Bytes)
    requires |b| == 8
    ensures Number(b) == Value(b)
  {
    assert b[..8] == b && b[..0] == [];
    forall k: nat | k < 8
      ensures Value(b[..k + 1]) == 256 * Value(b[..k]) + b[k] as int
    {
      assert b[..k + 1][..k] == b[..k];
    }
    assert Value(b[..4]) == Number4(b);
  }

  /** Of each file the hash sees the length of its name in UTF-8, the name, the length of its content, and the
      content, lengths in eight bytes with the most significant first. */
  lemma FileLayout(name: string, content: Bytes)
    requires Fits(name, content)
    ensures var b, n := FileBytes(name, content), |EncodeText(name)|;
      && |b| == 16 + n + |content|
      && Number(b[..8]) == n && b[8..8 + n] == EncodeText(name)
      && Number(b[8 + n..16 + n]) == |content| && b[16 + n..] == content
  {
    var e := EncodeText(name);
    var b, n := FileBytes(name, content), |e|;
    LimitIsPow();
    ValueOfBigEndian(n, 8);
    ValueOfBigEndian(|content|, 8);
    assert b[..8] == BigEndian(n, 8) && b[8 + n..16 + n] == BigEndian(|content|, 8);
    NumberIsValue(b[..8]);
    NumberIsValue(b[8 + n..16 + n]);
  }
}
