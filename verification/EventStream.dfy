/** The event-stream reader of the web client: text arrives in pieces of any size, and
    the blocks between blank lines are parsed as soon as they are complete.

    The specification looks at the whole text at once: normalise the line ends, then cut
    at the leftmost blank lines. The main results say for which texts the incremental
    reader agrees with it, whatever the network does. */
module EventStream {

  // ------------------------------------------------------------------ line ends

  /** Replaces every CRLF by LF, scanning once from the left. */
  function Normalize(s: string): string
  {
    if s == [] then []
    else if StartsWithPair(s) then ['\n'] + Normalize(s[2..])
    else [s[0]] + Normalize(s[1..])
  }

  predicate StartsWithPair(s: string) {
    |s| >= 2 && s[0] == '\r' && s[1] == '\n'
  }

  predicate PairAt(s: string, i: int) {
    0 <= i < |s| - 1 && s[i] == '\r' && s[i + 1] == '\n'
  }

  /** A CR standing directly before a CRLF: one pass leaves a new CRLF behind. */
  predicate LonePairAt(s: string, i: int) {
    0 <= i < |s| - 2 && s[i] == '\r' && PairAt(s, i + 1)
  }

  predicate EndsWith(s: string, end: string) {
    |end| <= |s| && s[|s| - |end|..] == end
  }

  ghost predicate NoPair(s: string) {
    forall i :: !PairAt(s, i)
  }

  ghost predicate NoLonePair(s: string) {
    forall i :: !LonePairAt(s, i)
  }

  // ------------------------------------------------------------------ blank lines

  predicate BlankLineAt(s: string, i: int) {
    0 <= i < |s| - 1 && s[i] == '\n' && s[i + 1] == '\n'
  }

  /** The first blank line, or -1. */
  function IndexOfBlankLine(s: string): (i: int)
    ensures -1 <= i < |s| - 1 || i == -1
    ensures i >= 0 ==> BlankLineAt(s, i)
    ensures forall k :: k < i || i == -1 ==> !BlankLineAt(s, k)
  {
    if |s| < 2 then -1
    else if BlankLineAt(s, 0) then 0
    else
      var j := IndexOfBlankLine(s[1..]);
      assert forall k :: k >= 1 ==> BlankLineAt(s, k) == BlankLineAt(s[1..], k - 1);
      if j < 0 then -1 else j + 1
  }

  datatype Parsed = Parsed(blocks: seq<string>, rest: string)

  /** The leftmost split at blank lines; `rest` is the incomplete tail. */
  function Split(s: string): Parsed
    decreases |s|
  {
    var i := IndexOfBlankLine(s);
    if i < 0 then Parsed([], s)
    else
      var tail := Split(s[i + 2..]);
      Parsed([s[..i]] + tail.blocks, tail.rest)
  }

  function Join(blocks: seq<string>): string
    decreases |blocks|
  {
    if blocks == [] then [] else blocks[0] + "\n\n" + Join(blocks[1..])
  }

  function Concat(chunks: seq<string>): string
    decreases |chunks|
  {
    if chunks == [] then [] else chunks[0] + Concat(chunks[1..])
  }

  // ------------------------------------------------------------------ event data

  /** White space that `trimStart` removes. */
  predicate IsSpace(c: char) {
    c in {' ', '\t', '\n', '\r', '\U{0B}', '\U{0C}', '\U{A0}', '\U{FEFF}', '\U{1680}',
          '\U{2028}', '\U{2029}', '\U{202F}', '\U{205F}', '\U{3000}'} ||
    '\U{2000}' <= c <= '\U{200A}'
  }

  function TrimStart(s: string): string {
    if s != [] && IsSpace(s[0]) then TrimStart(s[1..]) else s
  }

  function Lines(s: string): (lines: seq<string>)
    ensures |lines| >= 1
  {
    if s == [] then [[]]
    else
      var lines := Lines(s[1..]);
      if s[0] == '\n' then [[]] + lines else [[s[0]] + lines[0]] + lines[1..]
  }

  function DataLines(lines: seq<string>): seq<string>
    decreases |lines|
  {
    if lines == [] then []
    else (if "data:" <= lines[0] then [TrimStart(lines[0][5..])] else []) + DataLines(lines[1..])
  }

  function JoinLines(lines: seq<string>): string
    decreases |lines|
  {
    if lines == [] then []
    else if |lines| == 1 then lines[0]
    else lines[0] + "\n" + JoinLines(lines[1..])
  }

  function EventData(block: string): string {
    JoinLines(DataLines(Lines(block)))
  }

  function Payloads(blocks: seq<string>): seq<string> {
    seq(|blocks|, i requires 0 <= i < |blocks| => EventData(blocks[i]))
  }

  /** What the caller receives: the non-empty payloads in order, up to the first one that
      does not parse, which rejects the whole stream. */
  datatype Delivery = Delivery(events: seq<string>, rejected: bool)

  function Deliver(payloads: seq<string>, parses: string -> bool): Delivery
    decreases |payloads|
  {
    if payloads == [] then Delivery([], false)
    else if payloads[0] == [] then Deliver(payloads[1..], parses)
    else if !parses(payloads[0]) then Delivery([], true)
    else
      var later := Deliver(payloads[1..], parses);
      Delivery([payloads[0]] + later.events, later.rejected)
  }

  // ------------------------------------------------------------------ the reader

  /** The blocks the incremental reader cuts off, starting from a carried buffer. */
  function Consumed(buffer: string, chunks: seq<string>): seq<string>
    decreases |chunks|
  {
    if chunks == [] then []
    else
      var p := Split(Normalize(buffer + chunks[0]));
      p.blocks + Consumed(p.rest, chunks[1..])
  }

  /** Deliveries continue where an earlier one stopped. */
  function Resume(before: Delivery, payloads: seq<string>, parses: string -> bool): Delivery {
    if before.rejected then before
    else
      var d := Deliver(payloads, parses);
      Delivery(before.events + d.events, d.rejected)
  }

  lemma ResumeNext(events: seq<string>, data: string, later: seq<string>, parses: string -> bool)
    ensures Resume(Delivery(events, false), [data] + later, parses) ==
      if data == [] then Resume(Delivery(events, false), later, parses)
      else if parses(data) then Resume(Delivery(events + [data], false), later, parses)
      else Delivery(events, true)
  {
    assert ([data] + later)[1..] == later;
  }

  lemma {:induction false} ResumeAppend(before: Delivery, a: seq<string>, b: seq<string>, parses: string -> bool)
    ensures Resume(before, a + b, parses) == Resume(Resume(before, a, parses), b, parses)
    decreases |a|
  {
    if a == [] {
      assert a + b == b && before.events + [] == before.events;
    } else if !before.rejected {
      assert a + b == [a[0]] + (a[1..] + b) && a == [a[0]] + a[1..];
      ResumeNext(before.events, a[0], a[1..], parses);
      ResumeNext(before.events, a[0], a[1..] + b, parses);
      ResumeAppend(before, a[1..], b, parses);
      ResumeAppend(Delivery(before.events + [a[0]], false), a[1..], b, parses);
    }
  }

  /** Hands over every complete block of the buffer and keeps the rest. */
  method Drain(text: string, delivered: seq<string>, parses: string -> bool)
    returns (rest: string, events: seq<string>, rejected: bool)
    ensures Delivery(events, rejected) == Resume(Delivery(delivered, false), Payloads(Split(text).blocks), parses)
    ensures !rejected ==> rest == Split(text).rest
  {
    rest, events, rejected := text, delivered, false;
    var boundary := IndexOfBlankLine(rest);
    while boundary >= 0
      invariant boundary == IndexOfBlankLine(rest)
      invariant Split(rest).rest == Split(text).rest
      invariant Resume(Delivery(events, false), Payloads(Split(rest).blocks), parses)
             == Resume(Delivery(delivered, false), Payloads(Split(text).blocks), parses)
      decreases |rest|
    {
      SplitStep(rest, boundary);
      var data := EventData(rest[..boundary]);
      ghost var later := Split(rest[boundary + 2..]).blocks;
      PayloadsAppend([rest[..boundary]], later);
      ResumeNext(events, data, Payloads(later), parses);
      rest := rest[boundary + 2..];
      if data != [] {
        if !parses(data) { return rest, events, true; }
        events := events + [data];
      }
      boundary := IndexOfBlankLine(rest);
    }
    assert events + [] == events;
  }

  lemma SplitStep(s: string, i: nat)
    requires IndexOfBlankLine(s) == i
    ensures Split(s).blocks == [s[..i]] + Split(s[i + 2..]).blocks && Split(s).rest == Split(s[i + 2..]).rest
  {
  }

  lemma PayloadsAppend(a: seq<string>, b: seq<string>)
    ensures Payloads(a + b) == Payloads(a) + Payloads(b)
    ensures |a| == 1 ==> Payloads(a) == [EventData(a[0])]
  {
  }

  lemma ConsumedStep(buffer: string, chunks: seq<string>, next: nat)
    requires next < |chunks|
    ensures var p := Split(Normalize(buffer + chunks[next]));
      Consumed(buffer, chunks[next..]) == p.blocks + Consumed(p.rest, chunks[next + 1..])
  {
    assert chunks[next..][1..] == chunks[next + 1..];
  }

  /** `chunks` are the pieces read before the stream ended or the caller gave up. */
  method ConsumeStream(chunks: seq<string>, parses: string -> bool)
    returns (events: seq<string>, rejected: bool)
    ensures Delivery(events, rejected) == Deliver(Payloads(Consumed("", chunks)), parses)
    ensures NoLonePair(Concat(chunks)) ==>
      Delivery(events, rejected) == Deliver(Payloads(Split(Normalize(Concat(chunks))).blocks), parses)
  {
    events, rejected := ReadChunks(chunks, parses);
    if NoLonePair(Concat(chunks)) { ChunkIndependence(chunks); }
  }

  method ReadChunks(chunks: seq<string>, parses: string -> bool)
    returns (events: seq<string>, rejected: bool)
    ensures Delivery(events, rejected) == Deliver(Payloads(Consumed("", chunks)), parses)
  {
    events, rejected := [], false;
    var buffer := "";
    var next := 0;
    ghost var all := Deliver(Payloads(Consumed("", chunks)), parses);
    assert chunks[0..] == chunks && [] + all.events == all.events;
    while next < |chunks|
      invariant 0 <= next <= |chunks|
      invariant Resume(Delivery(events, false), Payloads(Consumed(buffer, chunks[next..])), parses) == all
    {
      ghost var p := Split(Normalize(buffer + chunks[next]));
      ghost var later := Consumed(p.rest, chunks[next + 1..]);
      ConsumedStep(buffer, chunks, next);
      PayloadsAppend(p.blocks, later);
      ResumeAppend(Delivery(events, false), Payloads(p.blocks), Payloads(later), parses);
      buffer, events, rejected := Drain(Normalize(buffer + chunks[next]), events, parses);
      if rejected { return events, true; }
      next := next + 1;
    }
    assert events + [] == events;
  }

  // ------------------------------------------------------------------ chunk independence

  lemma {:induction false} NormalizeLeavesNoPair(s: string)
    requires NoLonePair(s)
    ensures NoPair(Normalize(s))
    ensures s != [] ==> Normalize(s) != [] && (Normalize(s)[0] == '\n' <==> s[0] == '\n' || StartsWithPair(s))
    decreases |s|
  {
    if s == [] {
    } else if StartsWithPair(s) {
      Suffix(s, 2);
      NormalizeLeavesNoPair(s[2..]);
      PrependNoPair('\n', Normalize(s[2..]));
    } else {
      Suffix(s, 1);
      NormalizeLeavesNoPair(s[1..]);
      if s[0] == '\r' && |s| > 1 { assert !LonePairAt(s, 0); }
      PrependNoPair(s[0], Normalize(s[1..]));
    }
  }

  lemma Suffix(s: string, k: nat)
    requires k <= |s|
    ensures NoLonePair(s) ==> NoLonePair(s[k..])
  {
    assert forall i :: LonePairAt(s[k..], i) ==> LonePairAt(s, i + k);
  }

  lemma PrependNoPair(c: char, s: string)
    requires NoPair(s) && !(c == '\r' && s != [] && s[0] == '\n')
    ensures NoPair([c] + s)
  {
    assert forall i :: PairAt([c] + s, i) && i > 0 ==> PairAt(s, i - 1);
  }

  /** Normalising a prefix first does not change the normal form of the whole. */
  lemma {:induction false} NormalizePrefix(s: string, t: string)
    requires NoLonePair(s + t)
    ensures Normalize(Normalize(s) + t) == Normalize(s + t)
    decreases |s|
  {
    if |s| <= 1 {
      assert s == [] ==> Normalize(s) == s;
      assert |s| == 1 ==> Normalize(s) == [s[0]] + Normalize(s[1..]) && Normalize(s) == s;
    } else {
      StepTail(s, t);
      NormalizePrefix(s[Width(s)..], t);
      PrefixStep(s, t, Normalize(s[Width(s)..]));
    }
  }

  lemma {:induction false} PrefixStep(s: string, t: string, m: string)
    requires |s| > 1 && NoLonePair(s + t) && m == Normalize(s[Width(s)..])
    requires Normalize(m + t) == Normalize(s[Width(s)..] + t)
    ensures Normalize(Normalize(s) + t) == Normalize(s + t)
  {
    var k, c := Width(s), Head(s);
    assert s[k..] + t == (s + t)[k..];
    assert Normalize(s) + t == [c] + (m + t) && ([c] + (m + t))[1..] == m + t;
    if k == 1 && c == '\r' { assert !LonePairAt(s + t, 0); }
  }

  lemma {:induction false} NormalizeShort(s: string)
    requires |Normalize(s)| <= 1
    ensures Normalize(s) == s || Normalize(s) == "\n"
  {
    if s != [] && !StartsWithPair(s) { assert Normalize(s[1..]) == []; }
  }

  /** How much of a text one step of normalising replaces, and by what. */
  function Width(s: string): (k: nat)
    requires s != []
    ensures 1 <= k <= |s|
  {
    if StartsWithPair(s) then 2 else 1
  }

  function Head(s: string): char
    requires s != []
  {
    if StartsWithPair(s) then '\n' else s[0]
  }

  lemma {:induction false} NormalizeThenTail(s: string, t: string)
    requires NoLonePair(s + t)
    ensures NoLonePair(Normalize(s) + t)
    decreases |s|
  {
    if s == [] {
      assert Normalize(s) == s;
    } else {
      StepTail(s, t);
      NormalizeThenTail(s[Width(s)..], t);
      PrependCleared(s, t, Normalize(s[Width(s)..]));
    }
  }

  lemma StepTail(s: string, t: string)
    requires s != [] && NoLonePair(s + t)
    ensures NoLonePair(s[Width(s)..] + t)
  {
    assert s[Width(s)..] + t == (s + t)[Width(s)..];
    Suffix(s + t, Width(s));
  }

  lemma PrependCleared(s: string, t: string, m: string)
    requires s != [] && NoLonePair(s + t) && m == Normalize(s[Width(s)..]) && NoLonePair(m + t)
    ensures NoLonePair(Normalize(s) + t)
  {
    if Head(s) == '\r' { ReturnStaysAlone(s, t, m); }
    PrependNoLonePair(Head(s), m + t);
    assert Normalize(s) + t == [Head(s)] + (m + t);
  }

  /** A CR that no CRLF follows is not followed by one after normalising the rest. */
  lemma ReturnStaysAlone(s: string, t: string, m: string)
    requires s != [] && s[0] == '\r' && !StartsWithPair(s) && NoLonePair(s + t) && m == Normalize(s[1..])
    ensures !StartsWithPair(m + t)
  {
    NoLonePairPrefix(s, t);
    Suffix(s, 1);
    NormalizeLeavesNoPair(s[1..]);
    assert !PairAt(m, 0) && !LonePairAt(s + t, 0);
    if |m| <= 1 { NormalizeShort(s[1..]); }
  }

  lemma PrependNoLonePair(c: char, s: string)
    requires NoLonePair(s) && !(c == '\r' && StartsWithPair(s))
    ensures NoLonePair([c] + s)
  {
    assert forall i :: LonePairAt([c] + s, i) && i > 0 ==> LonePairAt(s, i - 1);
  }

  lemma JoinFirst(block: string, later: seq<string>, x: string)
    ensures Join([block] + later) + x == block + ("\n\n" + (Join(later) + x))
  {
    assert ([block] + later)[1..] == later;
  }

  lemma CutAtBlankLine(s: string, i: nat)
    requires BlankLineAt(s, i)
    ensures s == s[..i] + ("\n\n" + s[i + 2..])
  {
  }

  /** The split loses nothing. */
  lemma {:induction false} SplitJoin(s: string)
    ensures s == Join(Split(s).blocks) + Split(s).rest
    decreases |s|
  {
    var i := IndexOfBlankLine(s);
    if i >= 0 {
      SplitJoin(s[i + 2..]);
      CutAtBlankLine(s, i);
      JoinFirst(s[..i], Split(s[i + 2..]).blocks, Split(s).rest);
    }
  }

  lemma IndexOfUnique(s: string, i: nat)
    requires BlankLineAt(s, i) && forall k :: k < i ==> !BlankLineAt(s, k)
    ensures IndexOfBlankLine(s) == i
  {
  }

  /** A block holds no blank line, not even together with the line feed that ends it. */
  ghost predicate Whole(block: string) {
    forall k :: !BlankLineAt(block + "\n", k)
  }

  lemma SplitFirst(block: string, x: string)
    requires Whole(block)
    ensures var text := block + ("\n\n" + x);
      Split(text) == Parsed([block] + Split(x).blocks, Split(x).rest)
  {
    var text := block + ("\n\n" + x);
    assert text[..|block|] == block && text[|block| + 2..] == x;
    assert forall k :: k < |block| ==> BlankLineAt(text, k) == BlankLineAt(block + "\n", k);
    IndexOfUnique(text, |block|);
  }

  lemma {:induction false} SplitBlocksAreWhole(s: string)
    ensures forall b :: b in Split(s).blocks ==> Whole(b)
    decreases |s|
  {
    var i := IndexOfBlankLine(s);
    if i >= 0 {
      SplitBlocksAreWhole(s[i + 2..]);
      FirstBlockIsWhole(s, i);
    }
  }

  lemma FirstBlockIsWhole(s: string, i: nat)
    requires IndexOfBlankLine(s) == i
    ensures Whole(s[..i])
  {
    assert forall k :: BlankLineAt(s[..i] + "\n", k) ==> k < i && BlankLineAt(s, k);
  }

  lemma {:induction false} SplitAfterBlocks(blocks: seq<string>, x: string)
    requires forall b :: b in blocks ==> Whole(b)
    ensures Split(Join(blocks) + x) == Parsed(blocks + Split(x).blocks, Split(x).rest)
    decreases |blocks|
  {
    if blocks == [] {
      assert Join([]) + x == x && [] + Split(x).blocks == Split(x).blocks;
    } else {
      var later := blocks[1..];
      SplitAfterBlocks(later, x);
      JoinFirst(blocks[0], later, x);
      SplitFirst(blocks[0], Join(later) + x);
      AppendFirst(blocks, Split(x).blocks);
    }
  }

  lemma AppendFirst(blocks: seq<string>, more: seq<string>)
    requires blocks != []
    ensures [blocks[0]] + (blocks[1..] + more) == blocks + more && [blocks[0]] + blocks[1..] == blocks
  {
  }

  /** Text without CRLF that does not end in CR is kept by normalisation. */
  lemma {:induction false} NormalizeKeeps(x: string, y: string)
    requires NoPair(x)
    requires x == [] || x[|x| - 1] != '\r'
    ensures Normalize(x + y) == x + Normalize(y)
  {
    if x == [] {
      assert x + y == y;
    } else {
      NoPairTail(x);
      NormalizeKeeps(x[1..], y);
      KeepFirst(x, y, Normalize(y));
    }
  }

  lemma NoPairTail(x: string)
    requires NoPair(x) && x != []
    ensures NoPair(x[1..])
  {
    assert forall i :: PairAt(x[1..], i) ==> PairAt(x, i + 1);
  }

  lemma {:induction false} KeepFirst(x: string, y: string, n: string)
    requires NoPair(x) && x != [] && x[|x| - 1] != '\r' && Normalize(x[1..] + y) == x[1..] + n
    ensures Normalize(x + y) == x + n
  {
    assert !PairAt(x, 0) && (x + y)[1..] == x[1..] + y;
    assert x + n == [x[0]] + (x[1..] + n);
  }

  lemma {:induction false} JoinEndsInLineFeed(blocks: seq<string>)
    ensures blocks != [] ==> Join(blocks) != [] && Join(blocks)[|Join(blocks)| - 1] == '\n'
  {
    if |blocks| > 1 { JoinEndsInLineFeed(blocks[1..]); }
  }

  /** The split is the only way to cut a text into whole blocks and an unfinished tail. */
  lemma SplitIsUnique(blocks: seq<string>, rest: string)
    requires forall b :: b in blocks ==> Whole(b)
    requires forall k :: !BlankLineAt(rest, k)
    ensures Split(Join(blocks) + rest) == Parsed(blocks, rest)
  {
    SplitAfterBlocks(blocks, rest);
    assert blocks + [] == blocks;
  }

  /** What one piece leaves behind: complete blocks and a settled rest. */
  lemma AfterPiece(s: string, later: string)
    requires NoLonePair(s + later)
    ensures var p := Split(Normalize(s));
      && Split(Normalize(s + later)).blocks == p.blocks + Split(Normalize(p.rest + later)).blocks
      && NoLonePair(p.rest + later) && NoPair(p.rest) && IndexOfBlankLine(p.rest) == -1
  {
    var n := Normalize(s);
    var p := Split(n);
    var head := Join(p.blocks);
    NormalizePrefix(s, later);
    NormalizeThenTail(s, later);
    NoLonePairPrefix(s, later);
    NormalizeLeavesNoPair(s);
    SplitJoin(n);
    RestIsSettled(n);
    NoPairParts(head, p.rest);
    JoinEndsInLineFeed(p.blocks);
    SplitBlocksAreWhole(n);
    Regroup(n, head, p.rest, later);
    NormalizeKeeps(head, p.rest + later);
    SplitAfterBlocks(p.blocks, Normalize(p.rest + later));
  }

  lemma Regroup(n: string, a: string, b: string, c: string)
    requires n == a + b
    ensures n + c == a + (b + c)
    ensures NoLonePair(n + c) ==> NoLonePair(b + c)
  {
    assert n + c == a + (b + c);
    Suffix(n + c, |a|);
    assert (n + c)[|a|..] == b + c;
  }

  lemma NoLonePairPrefix(s: string, t: string)
    requires NoLonePair(s + t)
    ensures NoLonePair(s)
  {
    assert forall i :: LonePairAt(s, i) ==> LonePairAt(s + t, i);
  }

  lemma NoPairParts(a: string, b: string)
    requires NoPair(a + b)
    ensures NoPair(a) && NoPair(b)
  {
    assert forall i :: PairAt(a, i) ==> PairAt(a + b, i);
    assert forall i :: PairAt(b, i) ==> PairAt(a + b, i + |a|);
  }

  lemma {:induction false} CarriedBuffer(buffer: string, chunks: seq<string>)
    requires NoLonePair(buffer + Concat(chunks))
    requires NoPair(buffer) && IndexOfBlankLine(buffer) == -1
    ensures Consumed(buffer, chunks) == Split(Normalize(buffer + Concat(chunks))).blocks
    decreases |chunks|
  {
    if chunks == [] {
      assert buffer + Concat(chunks) == buffer;
      NormalizeFixed(buffer);
    } else {
      var later := Concat(chunks[1..]);
      var s := buffer + chunks[0];
      assert buffer + Concat(chunks) == s + later;
      AfterPiece(s, later);
      CarriedBuffer(Split(Normalize(s)).rest, chunks[1..]);
    }
  }

  lemma {:induction false} RestIsSettled(s: string)
    ensures IndexOfBlankLine(Split(s).rest) == -1
    decreases |s|
  {
    var i := IndexOfBlankLine(s);
    if i >= 0 { RestIsSettled(s[i + 2..]); }
  }

  lemma {:induction false} NormalizeFixed(s: string)
    requires NoPair(s)
    ensures Normalize(s) == s
  {
    if s != [] {
      assert !PairAt(s, 0);
      assert forall i :: PairAt(s[1..], i) ==> PairAt(s, i + 1);
      NormalizeFixed(s[1..]);
    }
  }

  /** However the text is cut into pieces, the blocks are those of the whole text. */
  lemma {:induction false} ChunkIndependence(chunks: seq<string>)
    requires NoLonePair(Concat(chunks))
    ensures Consumed("", chunks) == Split(Normalize(Concat(chunks))).blocks
  {
    assert "" + Concat(chunks) == Concat(chunks);
    CarriedBuffer("", chunks);
  }

  // ------------------------------------------------------------------ exactness

  function Returns(s: string): nat {
    if s == [] then 0 else (if s[0] == '\r' then 1 else 0) + Returns(s[1..])
  }

  function Pairs(s: string): nat {
    if s == [] then 0
    else if StartsWithPair(s) then 1 + Pairs(s[2..])
    else Pairs(s[1..])
  }

  function BlockReturns(blocks: seq<string>): nat
    decreases |blocks|
  {
    if blocks == [] then 0 else Returns(blocks[0]) + BlockReturns(blocks[1..])
  }

  lemma {:induction false} ReturnsAppend(a: string, b: string)
    ensures Returns(a + b) == Returns(a) + Returns(b)
  {
    if a == [] {
      assert a + b == b;
    } else {
      assert (a + b)[1..] == a[1..] + b;
      ReturnsAppend(a[1..], b);
    }
  }

  lemma {:induction false} PairsAppend(a: string, b: string)
    requires a != [] && a[|a| - 1] == '\n'
    ensures Pairs(a + b) == Pairs(a) + Pairs(b)
    decreases |a|
  {
    var k := if StartsWithPair(a) then 2 else 1;
    assert (a + b)[k..] == a[k..] + b;
    if |a| == k {
      assert a[k..] == [] && a[k..] + b == b;
    } else {
      PairsAppend(a[k..], b);
    }
  }

  lemma {:induction false} NormalizeDropsReturns(s: string)
    ensures Returns(Normalize(s)) + Pairs(s) == Returns(s)
    decreases |s|
  {
    if s != [] {
      if StartsWithPair(s) {
        NormalizeDropsReturns(s[2..]);
        assert Normalize(s)[1..] == Normalize(s[2..]);
        assert Returns(s) == 1 + Returns(s[1..]) && s[1..][1..] == s[2..];
      } else {
        NormalizeDropsReturns(s[1..]);
        assert Normalize(s)[1..] == Normalize(s[1..]);
      }
    }
  }

  lemma {:induction false} SplitKeepsReturns(s: string)
    ensures BlockReturns(Split(s).blocks) + Returns(Split(s).rest) == Returns(s)
    decreases |s|
  {
    var i := IndexOfBlankLine(s);
    if i >= 0 {
      SplitKeepsReturns(s[i + 2..]);
      assert Split(s).blocks[1..] == Split(s[i + 2..]).blocks;
      BlankLineHasNone(s, i);
    }
  }

  lemma BlankLineHasNone(s: string, i: nat)
    requires BlankLineAt(s, i)
    ensures Returns(s) == Returns(s[..i]) + Returns(s[i + 2..])
  {
    assert s == s[..i] + ("\n\n" + s[i + 2..]);
    ReturnsAppend(s[..i], "\n\n" + s[i + 2..]);
    ReturnsAppend("\n\n", s[i + 2..]);
    assert "\n\n"[1..] == "\n" && "\n"[1..] == "";
  }

  lemma {:induction false} BlockReturnsAppend(a: seq<string>, b: seq<string>)
    ensures BlockReturns(a + b) == BlockReturns(a) + BlockReturns(b)
  {
    if a == [] {
      assert a + b == b;
    } else {
      assert (a + b)[1..] == a[1..] + b;
      BlockReturnsAppend(a[1..], b);
    }
  }

  /** A text that ends in a blank line leaves at most one line feed unconsumed. */
  lemma {:induction false} ClosedTextIsConsumed(s: string)
    requires EndsWith(s, "\n\n")
    ensures Returns(Split(s).rest) == 0
    decreases |s|
  {
    assert BlankLineAt(s, |s| - 2);
    var i := IndexOfBlankLine(s);
    var tail := s[i + 2..];
    if |tail| >= 2 {
      SplitStep(s, i);
      TailEnds(s, i + 2, "\n\n");
      ClosedTextIsConsumed(tail);
    } else {
      assert |tail| == 1 ==> tail[0] == '\n';
    }
  }

  lemma EndsInTwo(s: string)
    ensures EndsWith(s, "\n\n") <==> |s| >= 2 && s[|s| - 2] == '\n' && s[|s| - 1] == '\n'
  {
    if |s| >= 2 { assert s[|s| - 2..] == [s[|s| - 2], s[|s| - 1]]; }
  }

  lemma {:induction false} NormalizeKeepsClosing(s: string)
    requires EndsWith(s, "\n\n")
    ensures EndsWith(Normalize(s), "\n\n")
    decreases |s|
  {
    EndsInTwo(s);
    if |s| == 2 {
      NormalizeFixed(s);
    } else if |s| == 3 && StartsWithPair(s) {
      ShortClosing(s);
    } else {
      var m := Normalize(s[Width(s)..]);
      EndsInTwo(s[Width(s)..]);
      NormalizeKeepsClosing(s[Width(s)..]);
      PrependEnd(Head(s), m, "\n\n");
      assert Normalize(s) == [Head(s)] + m;
    }
  }

  lemma {:induction false} ShortClosing(s: string)
    requires |s| == 3 && StartsWithPair(s) && s[2] == '\n'
    ensures Normalize(s) == "\n\n"
  {
    assert s[2..] == ['\n'];
    assert Normalize(['\n']) == ['\n'] + Normalize(['\n'][1..]) == ['\n'];
  }

  lemma PrependEnd(c: char, m: string, end: string)
    requires EndsWith(m, end)
    ensures EndsWith([c] + m, end)
  {
    assert ([c] + m)[|m| + 1 - |end|..] == m[|m| - |end|..];
  }

  lemma TailEnds(s: string, k: nat, end: string)
    requires EndsWith(s, end) && k + |end| <= |s|
    ensures EndsWith(s[k..], end)
  {
    assert s[k..][|s| - k - |end|..] == s[|s| - |end|..];
  }

  /** The characters of such an end, one by one. */
  lemma EndsInPair(s: string)
    ensures EndsWith(s, "\r\n") ==> PairAt(s, |s| - 2)
    ensures EndsWith(s, "\r\r\n") ==> LonePairAt(s, |s| - 3)
  {
    if EndsWith(s, "\r\n") { assert s[|s| - 2] == s[|s| - 2..][0] && s[|s| - 1] == s[|s| - 2..][1]; }
    if EndsWith(s, "\r\r\n") {
      assert s[|s| - 3] == s[|s| - 3..][0] && s[|s| - 2] == s[|s| - 3..][1] && s[|s| - 1] == s[|s| - 3..][2];
    }
  }

  lemma {:induction false} PairAtEndCounts(s: string)
    requires EndsWith(s, "\r\n")
    ensures Pairs(s) >= 1
    decreases |s|
  {
    EndsInPair(s);
    if !StartsWithPair(s) {
      TailEnds(s, 1, "\r\n");
      PairAtEndCounts(s[1..]);
    }
  }

  /** A lone CR before CRLF at the end of a piece leaves a CRLF in the buffer. */
  lemma {:induction false} LonePairSurvives(s: string)
    requires EndsWith(s, "\r\r\n")
    ensures EndsWith(Normalize(s), "\r\n")
    decreases |s|
  {
    EndsInPair(s);
    if |s| == 3 {
      assert s[1..] == "\r\n" && Normalize(s[1..]) == ['\n'] + Normalize(s[1..][2..]);
      assert Normalize(s) == ['\r'] + Normalize(s[1..]);
    } else {
      TailEnds(s, Width(s), "\r\r\n");
      LonePairSurvives(s[Width(s)..]);
      PrependEnd(Head(s), Normalize(s[Width(s)..]), "\r\n");
    }
  }

  lemma {:induction false} RestKeepsPair(s: string)
    requires EndsWith(s, "\r\n")
    ensures EndsWith(Split(s).rest, "\r\n")
    decreases |s|
  {
    var i := IndexOfBlankLine(s);
    if i >= 0 {
      SplitStep(s, i);
      EndsInPair(s);
      TailEnds(s, i + 2, "\r\n");
      RestKeepsPair(s[i + 2..]);
    }
  }

  /** The reader's carriage-return balance over a text cut in two. */
  lemma {:induction false} TwoPieces(a: string, b: string)
    requires EndsWith(a, "\r\r\n")
    ensures Consumed("", [a, b]) == Split(Normalize(a)).blocks + Split(Normalize(Split(Normalize(a)).rest + b)).blocks
    ensures BlockReturns(Consumed("", [a, b])) < Returns(a) + Returns(b) - Pairs(a) - Pairs(b)
  {
    var first := Split(Normalize(a));
    ConsumedTwo(a, b);
    LonePairSurvives(a);
    RestKeepsPair(Normalize(a));
    PairAtEndCounts(first.rest);
    assert first.rest[|first.rest| - 1] == "\r\n"[1];
    SecondPiece(first.rest, b);
    BlockReturnsAppend(first.blocks, Split(Normalize(first.rest + b)).blocks);
    SplitKeepsReturns(Normalize(a));
    NormalizeDropsReturns(a);
  }

  lemma {:induction false} ConsumedTwo(a: string, b: string)
    ensures Consumed("", [a, b]) == Split(Normalize(a)).blocks + Split(Normalize(Split(Normalize(a)).rest + b)).blocks
  {
    var first := Split(Normalize(a));
    assert [a, b][1..] == [b] && [b][1..] == [] && "" + a == a;
    assert Consumed(first.rest, [b]) == Split(Normalize(first.rest + b)).blocks + [];
  }

  lemma {:induction false} SecondPiece(rest: string, b: string)
    requires rest != [] && rest[|rest| - 1] == '\n'
    ensures BlockReturns(Split(Normalize(rest + b)).blocks) <= Returns(rest) + Returns(b) - Pairs(rest) - Pairs(b)
  {
    SplitKeepsReturns(Normalize(rest + b));
    NormalizeDropsReturns(rest + b);
    ReturnsAppend(rest, b);
    PairsAppend(rest, b);
  }

  lemma CutHead(text: string, i: nat)
    requires LonePairAt(text, i)
    ensures EndsWith(text[..i + 3], "\r\r\n")
  {
    var a := text[..i + 3];
    assert a[i..] == [a[i], a[i + 1], a[i + 2]];
  }

  lemma CutTail(text: string, i: nat)
    requires EndsWith(text, "\n\n") && LonePairAt(text, i)
    ensures var b := text[i + 3..]; EndsWith(b, "\n") && (|b| == 1 || EndsWith(b, "\n\n"))
  {
    var b := text[i + 3..];
    EndsInTwo(text);
    assert text[i + 1] == '\r';
    assert b[|b| - 1..] == [b[|b| - 1]];
    EndsInTwo(b);
  }

  lemma CutAfter(text: string, i: nat)
    requires EndsWith(text, "\n\n") && LonePairAt(text, i)
    ensures var a, b := text[..i + 3], text[i + 3..];
      && text == a + b && Concat([a, b]) == text
      && EndsWith(a, "\r\r\n") && EndsWith(b, "\n") && (|b| == 1 || EndsWith(b, "\n\n"))
  {
    var a, b := text[..i + 3], text[i + 3..];
    CutHead(text, i);
    CutTail(text, i);
    assert [a, b][1..] == [b] && [b][1..] == [] && Concat([b]) == b + [];
  }

  /** Cutting right after such a CRLF changes what the reader emits. */
  lemma {:induction false} LonePairBreaks(text: string, i: nat)
    requires EndsWith(text, "\n\n") && LonePairAt(text, i)
    ensures Concat([text[..i + 3], text[i + 3..]]) == text
    ensures BlockReturns(Consumed("", [text[..i + 3], text[i + 3..]])) < BlockReturns(Split(Normalize(text)).blocks)
  {
    var a, b := text[..i + 3], text[i + 3..];
    CutAfter(text, i);
    TwoPieces(a, b);
    NormalizeKeepsClosing(text);
    ClosedTextIsConsumed(Normalize(text));
    SplitKeepsReturns(Normalize(text));
    NormalizeDropsReturns(text);
    ReturnsAppend(a, b);
    PairsAppend(a, b);
  }

  /** For a text that ends in a blank line, the reader is independent of the cuts exactly
      when no CR stands directly before a CRLF. */
  lemma {:induction false} ChunkIndependenceIsExact(text: string)
    requires EndsWith(text, "\n\n")
    ensures NoLonePair(text) <==>
      forall chunks: seq<string> | Concat(chunks) == text :: Consumed("", chunks) == Split(Normalize(text)).blocks
  {
    if NoLonePair(text) {
      forall chunks: seq<string> | Concat(chunks) == text
        ensures Consumed("", chunks) == Split(Normalize(text)).blocks
      {
        ChunkIndependence(chunks);
      }
    } else {
      var i :| LonePairAt(text, i);
      LonePairBreaks(text, i);
    }
  }
}
