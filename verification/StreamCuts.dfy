/** For which texts, closed or not, the cuts of the network do not matter to the event-stream
    reader. Read in one piece, each line end loses at most one CR; read as slowly as possible,
    with empty pieces in between, it loses all of them. These two extremes decide: if they
    give the same blocks then so does every other way of cutting. */
module StreamCuts {
  import opened EventStream

  /** Every CR in front of a line feed removed, however many there are. */
  function Bare(s: string): string {
    if s == [] then [] else Before(s[0], Bare(s[1..]))
  }

  function Before(c: char, s: string): string {
    if c == '\r' && s != [] && s[0] == '\n' then s else [c] + s
  }

  predicate EndsLine(s: string) {
    s == [] || s[|s| - 1] == '\n'
  }

  // ------------------------------------------------------------------ bare texts

  lemma {:induction false} BareStep(c: char, s: string)
    ensures Bare([c] + s) == Before(c, Bare(s))
  {
    assert ([c] + s)[0] == c && ([c] + s)[1..] == s;
  }

  /** One pass over the line ends changes nothing once all are bare. */
  lemma {:induction false} BareAfterNormalize(a: string, b: string)
    ensures Bare(Normalize(a) + b) == Bare(a + b)
    decreases |a|
  {
    if a == [] {
      assert Normalize(a) == a;
    } else {
      var m := Normalize(a[Width(a)..]);
      BareAfterNormalize(a[Width(a)..], b);
      BareOfStep(a, m, b);
      assert Normalize(a) + b == [Head(a)] + (m + b);
    }
  }

  lemma {:induction false} BareOfStep(a: string, m: string, b: string)
    requires a != [] && Bare(m + b) == Bare(a[Width(a)..] + b)
    ensures Bare([Head(a)] + (m + b)) == Bare(a + b)
  {
    var tail := a[Width(a)..];
    BareStep(Head(a), m + b);
    BareStep(Head(a), tail + b);
    if StartsWithPair(a) {
      assert a + b == ['\r'] + (['\n'] + (tail + b));
      BareStep('\r', ['\n'] + (tail + b));
    } else {
      assert a + b == [Head(a)] + (tail + b);
    }
  }

  lemma {:induction false} BareTwice(a: string, b: string)
    ensures Bare(Bare(a) + b) == Bare(a + b)
  {
    if a == [] {
      assert Bare(a) == a;
    } else {
      var tail := a[1..];
      BareTwice(tail, b);
      assert a + b == [a[0]] + (tail + b);
      BareStep(a[0], tail + b);
      BareTwiceStep(a[0], Bare(tail), b);
    }
  }

  lemma {:induction false} BareTwiceStep(c: char, t: string, b: string)
    ensures Bare(Before(c, t) + b) == Before(c, Bare(t + b))
  {
    if Before(c, t) == t {
      LineFeedStays(t, b);
    } else {
      assert Before(c, t) + b == [c] + (t + b);
      BareStep(c, t + b);
    }
  }

  lemma {:induction false} LineFeedStays(s: string, b: string)
    ensures s != [] && s[0] == '\n' ==> Bare(s + b) != [] && Bare(s + b)[0] == '\n'
  {
    if s != [] {
      assert s + b == [s[0]] + (s[1..] + b);
      BareStep(s[0], s[1..] + b);
    }
  }

  lemma {:induction false} BareHasNoPair(s: string)
    ensures NoPair(Bare(s)) && |Bare(s)| <= |s|
  {
    if s != [] {
      BareHasNoPair(s[1..]);
      if Bare(s) != Bare(s[1..]) { PrependNoPair(s[0], Bare(s[1..])); }
    }
  }

  lemma {:induction false} BareKeeps(s: string)
    requires NoPair(s)
    ensures Bare(s) == s
  {
    if s != [] {
      assert !PairAt(s, 0);
      NoPairTail(s);
      BareKeeps(s[1..]);
    }
  }

  lemma {:induction false} BareDistributes(a: string, b: string)
    requires EndsLine(a)
    ensures Bare(a + b) == Bare(a) + Bare(b) && (a != [] ==> Bare(a) != [])
  {
    if a == [] {
      assert a + b == b;
    } else {
      var tail := a[1..];
      assert a + b == [a[0]] + (tail + b);
      BareStep(a[0], tail + b);
      BareDistributes(tail, b);
    }
  }

  /** No blank line appears out of nothing, and none is lost. */
  lemma {:induction false} BlankLineStays(s: string, i: nat)
    requires BlankLineAt(s, i)
    ensures IndexOfBlankLine(Bare(s)) >= 0
    decreases i
  {
    if i == 0 {
      var later := Bare(s[2..]);
      assert s[1..][1..] == s[2..];
      assert Bare(s[1..]) == ['\n'] + later && Bare(s) == ['\n'] + Bare(s[1..]);
      assert BlankLineAt(Bare(s), 0);
    } else {
      BlankLineStays(s[1..], i - 1);
      var j := IndexOfBlankLine(Bare(s[1..]));
      assert BlankLineAt(Bare(s), j) || BlankLineAt(Bare(s), j + 1);
    }
  }

  function Feeds(s: string): nat {
    if s == [] then 0 else (if s[0] == '\n' then 1 else 0) + Feeds(s[1..])
  }

  lemma {:induction false} FeedsAppend(a: string, b: string)
    ensures Feeds(a + b) == Feeds(a) + Feeds(b)
  {
    if a == [] {
      assert a + b == b;
    } else {
      assert (a + b)[1..] == a[1..] + b;
      FeedsAppend(a[1..], b);
    }
  }

  lemma {:induction false} BareKeepsFeeds(s: string)
    ensures Feeds(Bare(s)) == Feeds(s)
  {
    if s != [] {
      BareKeepsFeeds(s[1..]);
      if Bare(s) != Bare(s[1..]) { assert Bare(s)[1..] == Bare(s[1..]); }
    }
  }

  /** Where a text and its bare form begin alike up to a line end, that part is bare. */
  lemma {:induction false} BareBeginning(p: string, x: string, y: string)
    requires EndsLine(p) && Bare(p) + x == p + y
    ensures Bare(p) == p
  {
    BareHasNoPair(p);
    BareKeepsFeeds(p);
    var n := |Bare(p)|;
    assert Bare(p) == (Bare(p) + x)[..n] == (p + y)[..n] == p[..n];
    assert p == p[..n] + p[n..];
    FeedsAppend(p[..n], p[n..]);
    if n < |p| { LastFeed(p[n..]); }
  }

  lemma {:induction false} LastFeed(s: string)
    requires s != [] && EndsLine(s)
    ensures Feeds(s) > 0
  {
    assert s == s[..|s| - 1] + "\n";
    FeedsAppend(s[..|s| - 1], "\n");
  }

  // ------------------------------------------------------------------ if the extremes agree

  lemma {:induction false} NormalizeDistributes(a: string, b: string)
    requires EndsLine(a)
    ensures Normalize(a + b) == Normalize(a) + Normalize(b)
    decreases |a|
  {
    if a == [] {
      assert a + b == b;
    } else {
      var tail := a[Width(a)..];
      StepOfLine(a, b);
      NormalizeDistributes(tail, b);
      assert Normalize(a) + Normalize(b) == [Head(a)] + (Normalize(tail) + Normalize(b));
    }
  }

  lemma {:induction false} StepOfLine(a: string, b: string)
    requires a != [] && EndsLine(a)
    ensures EndsLine(a[Width(a)..]) && Normalize(a + b) == [Head(a)] + Normalize(a[Width(a)..] + b)
    ensures Normalize(a) == [Head(a)] + Normalize(a[Width(a)..])
  {
    var k := Width(a);
    assert (a + b)[k..] == a[k..] + b;
    if k < |a| { assert a[k..][|a| - k - 1] == a[|a| - 1]; }
  }

  /** A cut of the normal form comes from a cut of the text. */
  lemma {:induction false} CutOfText(s: string, p: string, q: string) returns (u: nat)
    requires Normalize(s) == p + q
    ensures u <= |s| && Normalize(s[..u]) == p && Normalize(s[u..]) == q
    ensures EndsLine(p) ==> EndsLine(s[..u])
    decreases |s|
  {
    if p == [] {
      u := 0;
      assert s[0..] == s && p + q == q && s[..0] == [];
    } else {
      assert s != [] && p[0] == Normalize(s)[0] == Head(s) && Normalize(s)[1..] == p[1..] + q;
      var k := Width(s);
      var v := CutOfText(s[k..], p[1..], q);
      u := k + v;
      CutFurther(s, p, q, v);
    }
  }

  lemma {:induction false} CutFurther(s: string, p: string, q: string, v: nat)
    requires s != [] && p != [] && p[0] == Head(s) && v <= |s| - Width(s)
    requires Normalize(s[Width(s)..][..v]) == p[1..] && Normalize(s[Width(s)..][v..]) == q
    requires EndsLine(p[1..]) ==> EndsLine(s[Width(s)..][..v])
    ensures var u := Width(s) + v;
      Normalize(s[..u]) == p && Normalize(s[u..]) == q && (EndsLine(p) ==> EndsLine(s[..u]))
  {
    var k := Width(s);
    var a := s[..k + v];
    assert a[k..] == s[k..][..v] && s[k + v..] == s[k..][v..];
    assert Width(a) == k && Head(a) == Head(s);
    assert Normalize(a) == [Head(s)] + p[1..] == p;
    if EndsLine(p) && v == 0 {
      assert p[1..] == Normalize([]) == [];
    }
  }

  lemma {:induction false} NoLonePairIf(s: string)
    requires NoPair(Normalize(s))
    ensures NoLonePair(s)
    decreases |s|
  {
    if s != [] {
      var tail := s[Width(s)..];
      assert Normalize(s) == [Head(s)] + Normalize(tail) && !PairAt(Normalize(s), 0);
      NoPairTail(Normalize(s));
      assert Normalize(s)[1..] == Normalize(tail);
      NoLonePairIf(tail);
      PrependNoLonePair(Head(s), tail);
      if StartsWithPair(s) {
        PrependNoLonePair('\r', ['\n'] + tail);
        assert s == ['\r'] + (['\n'] + tail);
      } else {
        assert s == [Head(s)] + tail;
      }
    }
  }

  /** A text in two parts: whole blocks that every cutting reads alike, and a tail in which
      no cutting finds a blank line. */
  ghost predicate InTwo(u: string, v: string) {
    && NoLonePair(u) && EndsLine(u) && Split(Normalize(u)).rest == []
    && IndexOfBlankLine(Bare(v)) == -1
  }

  /** If the extremes agree, the text is of that kind. */
  lemma {:induction false} AgreeingIsInTwo(s: string) returns (u: nat)
    requires Split(Normalize(s)).blocks == Split(Bare(s)).blocks
    ensures u <= |s| && InTwo(s[..u], s[u..])
    ensures Split(Normalize(s[..u])).blocks == Split(Normalize(s)).blocks
  {
    var blocks, rest := Split(Normalize(s)).blocks, Split(Normalize(s)).rest;
    SplitJoin(Normalize(s));
    SplitJoin(Bare(s));
    JoinEndsInLineFeed(blocks);
    u := CutOfText(s, Join(blocks), rest);
    BareBlocks(s, Join(blocks), rest, Split(Bare(s)).rest);
    RestIsSettled(Bare(s));
    BareOfTail(s[u..], rest);
    NoLonePairIf(s[..u]);
    SplitBlocksAreWhole(Normalize(s));
    JustBlocks(blocks);
  }

  lemma {:induction false} BareOfTail(v: string, rest: string)
    requires Normalize(v) == rest
    ensures Bare(v) == Bare(rest)
  {
    BareAfterNormalize(v, []);
    assert rest + [] == rest && v + [] == v;
  }

  lemma {:induction false} JustBlocks(blocks: seq<string>)
    requires forall b :: b in blocks ==> Whole(b)
    ensures Split(Join(blocks)) == Parsed(blocks, [])
  {
    SplitIsUnique(blocks, []);
    assert Join(blocks) + [] == Join(blocks);
  }

  lemma {:induction false} BareBlocks(s: string, p: string, rest: string, bareRest: string)
    requires Normalize(s) == p + rest && EndsLine(p)
    requires Bare(s) == p + bareRest
    ensures NoPair(p) && Bare(rest) == bareRest
  {
    BareAfterNormalize(s, []);
    assert Normalize(s) + [] == p + rest && s + [] == s;
    BareDistributes(p, rest);
    BareBeginning(p, Bare(rest), bareRest);
    BareHasNoPair(p);
    assert Bare(rest) == (p + Bare(rest))[|p|..] == (p + bareRest)[|p|..] == bareRest;
  }

  /** The buffer is still within the blocks, or the blocks are consumed. */
  ghost predicate Within(buffer: string, u: string) {
    u == [] || (|buffer| <= |u| && NoPair(buffer) && IndexOfBlankLine(buffer) == -1)
  }

  /** However such a text is cut, exactly its blocks are consumed. */
  lemma {:induction false} InTwoIsConsumed(buffer: string, chunks: seq<string>, u: string, v: string)
    requires buffer + Concat(chunks) == u + v && InTwo(u, v) && Within(buffer, u)
    ensures Consumed(buffer, chunks) == Split(Normalize(u)).blocks
    decreases |chunks|
  {
    if chunks == [] {
      assert buffer + [] == buffer;
      if u != [] {
        assert buffer == u;
        NormalizeFixed(buffer);
      }
    } else {
      var x, later := buffer + chunks[0], Concat(chunks[1..]);
      assert x + later == u + v;
      var a, b := OnePiece(x, later, u, v);
      InTwoIsConsumed(Split(Normalize(x)).rest, chunks[1..], a, b);
    }
  }

  /** One piece consumes some of the blocks, and leaves a text of the same kind. */
  lemma {:induction false} OnePiece(x: string, later: string, u: string, v: string) returns (a: string, b: string)
    requires x + later == u + v && InTwo(u, v)
    ensures var p := Split(Normalize(x));
      && p.rest + later == a + b && InTwo(a, b) && Within(p.rest, a)
      && Split(Normalize(u)).blocks == p.blocks + Split(Normalize(a)).blocks
  {
    if |x| < |u| {
      CutInside(x, later, u, v);
      var w := u[|x|..];
      a, b := Split(Normalize(x)).rest + w, v;
      PieceOfBlocks(x, w, v);
    } else {
      CutInside(u, v, x, later);
      var w := x[|u|..];
      a, b := [], Normalize(w) + later;
      PieceOfTail(u, w, later);
    }
  }

  lemma {:induction false} PieceOfBlocks(x: string, w: string, v: string)
    requires InTwo(x + w, v) && w != []
    ensures var p := Split(Normalize(x));
      && p.rest + (w + v) == (p.rest + w) + v && InTwo(p.rest + w, v) && Within(p.rest, p.rest + w)
      && Split(Normalize(x + w)).blocks == p.blocks + Split(Normalize(p.rest + w)).blocks
  {
    AfterPiece(x, w);
    AfterPieceRest(x, w);
    assert (x + w)[|x + w| - 1] == w[|w| - 1];
    StillInTwo(Split(Normalize(x)).rest, w, v);
  }

  lemma {:induction false} StillInTwo(rest: string, w: string, v: string)
    requires w != [] && EndsLine(w) && NoPair(rest) && IndexOfBlankLine(rest) == -1
    requires NoLonePair(rest + w) && Split(Normalize(rest + w)).rest == [] && IndexOfBlankLine(Bare(v)) == -1
    ensures rest + (w + v) == (rest + w) + v && InTwo(rest + w, v) && Within(rest, rest + w)
  {
    assert (rest + w)[|rest + w| - 1] == w[|w| - 1];
  }

  lemma {:induction false} CutInside(x: string, later: string, u: string, v: string)
    requires x + later == u + v && |x| <= |u|
    ensures u == x + u[|x|..] && later == u[|x|..] + v
  {
    assert x == (x + later)[..|x|] && later == (x + later)[|x|..];
    assert u[..|x|] == (u + v)[..|x|] && (u + v)[|x|..] == u[|x|..] + v;
  }

  lemma {:induction false} AfterPieceRest(s: string, later: string)
    requires NoLonePair(s + later)
    ensures Split(Normalize(s + later)).rest == Split(Normalize(Split(Normalize(s)).rest + later)).rest
  {
    var n := Normalize(s);
    var p := Split(n);
    NormalizePrefix(s, later);
    NoLonePairPrefix(s, later);
    NormalizeLeavesNoPair(s);
    SplitJoin(n);
    NoPairParts(Join(p.blocks), p.rest);
    JoinEndsInLineFeed(p.blocks);
    SplitBlocksAreWhole(n);
    Regroup(n, Join(p.blocks), p.rest, later);
    NormalizeKeeps(Join(p.blocks), p.rest + later);
    SplitAfterBlocks(p.blocks, Normalize(p.rest + later));
  }

  lemma {:induction false} PieceOfTail(u: string, w: string, later: string)
    requires InTwo(u, w + later)
    ensures var p := Split(Normalize(u + w));
      && p.rest + later == [] + (Normalize(w) + later) && InTwo([], Normalize(w) + later)
      && Split(Normalize(u)).blocks == p.blocks + Split(Normalize([])).blocks
  {
    BareAfterNormalize(w, later);
    NoBlankLineInFront(Normalize(w), later);
    NormalizeDistributes(u, w);
    BlocksThenTail(Normalize(u), Normalize(w));
    assert Normalize([]) == [];
  }

  lemma {:induction false} NoBlankLineInFront(a: string, b: string)
    requires IndexOfBlankLine(Bare(a + b)) == -1
    ensures forall k :: !BlankLineAt(a, k)
  {
    forall k ensures !BlankLineAt(a, k) {
      if BlankLineAt(a, k) {
        assert BlankLineAt(a + b, k);
        BlankLineStays(a + b, k);
      }
    }
  }

  lemma {:induction false} BlocksThenTail(n: string, tail: string)
    requires Split(n).rest == [] && forall k :: !BlankLineAt(tail, k)
    ensures Split(n + tail) == Parsed(Split(n).blocks, tail)
  {
    var blocks := Split(n).blocks;
    SplitJoin(n);
    assert Join(blocks) + [] == Join(blocks);
    SplitBlocksAreWhole(n);
    SplitIsUnique(blocks, tail);
  }

  // ------------------------------------------------------------------ the slowest cutting

  function Nothing(n: nat): seq<string> {
    if n == 0 then [] else [""] + Nothing(n - 1)
  }

  /** One character at a time, and `n` empty pieces after each. */
  function Slowly(s: string, n: nat): seq<string> {
    if s == [] then [] else [[s[0]]] + (Nothing(n) + Slowly(s[1..], n))
  }

  lemma {:induction false} NothingIsConcat(n: nat, later: seq<string>)
    ensures Concat(Nothing(n) + later) == Concat(later)
  {
    if n == 0 {
      assert Nothing(0) + later == later;
    } else {
      assert Nothing(n) + later == [""] + (Nothing(n - 1) + later);
      assert ([""] + (Nothing(n - 1) + later))[1..] == Nothing(n - 1) + later;
      NothingIsConcat(n - 1, later);
    }
  }

  lemma {:induction false} SlowlyIsConcat(s: string, n: nat)
    ensures Concat(Slowly(s, n)) == s
  {
    if s != [] {
      var later := Nothing(n) + Slowly(s[1..], n);
      assert Slowly(s, n)[0] == [s[0]] && Slowly(s, n)[1..] == later;
      NothingIsConcat(n, Slowly(s[1..], n));
      SlowlyIsConcat(s[1..], n);
      assert s == [s[0]] + s[1..];
    }
  }

  lemma ConsumedFirst(buffer: string, chunk: string, later: seq<string>)
    ensures var p := Split(Normalize(buffer + chunk));
      Consumed(buffer, [chunk] + later) == p.blocks + Consumed(p.rest, later)
  {
    assert ([chunk] + later)[0] == chunk && ([chunk] + later)[1..] == later;
  }

  /** An empty piece is one more pass over the buffer. */
  lemma NothingFirst(buffer: string, n: nat, later: seq<string>)
    requires n > 0
    ensures var p := Split(Normalize(buffer));
      Consumed(buffer, Nothing(n) + later) == p.blocks + Consumed(p.rest, Nothing(n - 1) + later)
  {
    assert Nothing(n) + later == [""] + (Nothing(n - 1) + later);
    assert buffer + "" == buffer;
    ConsumedFirst(buffer, "", Nothing(n - 1) + later);
  }

  lemma {:induction false} Idle(buffer: string, n: nat, later: seq<string>)
    requires NoPair(buffer) && IndexOfBlankLine(buffer) == -1
    ensures Consumed(buffer, Nothing(n) + later) == Consumed(buffer, later)
  {
    if n == 0 {
      assert Nothing(0) + later == later;
    } else {
      NothingFirst(buffer, n, later);
      NormalizeFixed(buffer);
      Idle(buffer, n - 1, later);
      assert [] + Consumed(buffer, Nothing(n - 1) + later) == Consumed(buffer, Nothing(n - 1) + later);
    }
  }

  /** Only the end of the buffer is new: a CRLF or a blank line can only stand there. */
  ghost predicate FreshEnd(s: string) {
    forall i :: PairAt(s, i) || BlankLineAt(s, i) ==> i == |s| - 2
  }

  /** With enough empty pieces the last line end becomes bare. */
  lemma {:induction false} Settles(s: string, n: nat, later: seq<string>)
    requires FreshEnd(s) && n >= |s| && n > 0
    ensures var p := Split(Bare(s));
      Consumed(s, Nothing(n) + later) == p.blocks + Consumed(p.rest, later)
    decreases n
  {
    if NoPair(s) {
      NormalizeFixed(s);
      BareKeeps(s);
      SettlesAtOnce(s, s, n, later);
    } else {
      var y := s[..|s| - 2] + "\n";
      OneReturnLess(s);
      BareOfTail(s, y);
      if NoPair(y) {
        BareKeeps(y);
        SettlesAtOnce(s, y, n, later);
      } else {
        NothingFirst(s, n, later);
        Settles(y, n - 1, later);
      }
    }
  }

  lemma {:induction false} SettlesAtOnce(s: string, y: string, n: nat, later: seq<string>)
    requires Normalize(s) == y && NoPair(y) && n > 0
    ensures Consumed(s, Nothing(n) + later) == Split(y).blocks + Consumed(Split(y).rest, later)
  {
    NothingFirst(s, n, later);
    SettledRest(y);
    Idle(Split(y).rest, n - 1, later);
  }

  lemma {:induction false} SettledRest(s: string)
    requires NoPair(s)
    ensures NoPair(Split(s).rest) && NoPair(Join(Split(s).blocks)) && IndexOfBlankLine(Split(s).rest) == -1
    ensures |Split(s).rest| <= |s|
  {
    SplitJoin(s);
    NoPairParts(Join(Split(s).blocks), Split(s).rest);
    RestIsSettled(s);
  }

  lemma {:induction false} OneReturnLess(s: string)
    requires FreshEnd(s) && !NoPair(s)
    ensures |s| >= 2 && Normalize(s) == s[..|s| - 2] + "\n" && FreshEnd(s[..|s| - 2] + "\n")
    ensures NoPair(s[..|s| - 2] + "\n") || IndexOfBlankLine(s[..|s| - 2] + "\n") == -1
  {
    var m := s[..|s| - 2];
    var i :| PairAt(s, i);
    assert s == m + "\r\n";
    forall k ensures !PairAt(m, k) && !BlankLineAt(m, k) {
      assert PairAt(m, k) ==> PairAt(s, k);
      assert BlankLineAt(m, k) ==> BlankLineAt(s, k);
    }
    NormalizeEnd(m);
    forall k | PairAt(m + "\n", k) || BlankLineAt(m + "\n", k) ensures k == |m| - 1 {
      assert k < |m| - 1 ==> PairAt(m, k) || BlankLineAt(m, k);
    }
  }

  lemma {:induction false} NormalizeEnd(m: string)
    requires NoPair(m)
    ensures Normalize(m + "\r\n") == m + "\n"
  {
    if m == [] {
      assert m + "\r\n" == "\r\n" && "\r\n"[2..] == [];
      assert Normalize("\r\n") == ['\n'] + Normalize([]);
    } else {
      assert !PairAt(m, 0);
      NoPairTail(m);
      NormalizeEnd(m[1..]);
      assert (m + "\r\n")[1..] == m[1..] + "\r\n" && !StartsWithPair(m + "\r\n");
      assert m + "\n" == [m[0]] + (m[1..] + "\n");
    }
  }

  /** Read as slowly as possible, a text gives the blocks of its bare form. */
  lemma {:induction false} SlowlyIsBare(buffer: string, s: string, n: nat)
    requires NoPair(buffer) && IndexOfBlankLine(buffer) == -1 && n >= |buffer| + |s|
    ensures Consumed(buffer, Slowly(s, n)) == Split(Bare(buffer + s)).blocks
    decreases |s|
  {
    if s == [] {
      assert buffer + s == buffer;
      BareKeeps(buffer);
    } else {
      SlowlyFirst(buffer, s, n);
      SlowlyIsBare(Split(Bare(buffer + [s[0]])).rest, s[1..], n);
      BareFirst(buffer, s);
    }
  }

  lemma {:induction false} SlowlyFirst(buffer: string, s: string, n: nat)
    requires NoPair(buffer) && IndexOfBlankLine(buffer) == -1 && s != [] && n >= |buffer| + |s|
    ensures var p := Split(Bare(buffer + [s[0]]));
      && Consumed(buffer, Slowly(s, n)) == p.blocks + Consumed(p.rest, Slowly(s[1..], n))
      && NoPair(p.rest) && IndexOfBlankLine(p.rest) == -1 && |p.rest| <= |buffer| + 1
  {
    var z, later := buffer + [s[0]], Slowly(s[1..], n);
    FirstCharacter(buffer, s, n, later);
    OneMoreCharacter(buffer, s[0]);
    Settles(z, n + 1, later);
    BareHasNoPair(z);
    SettledRest(Bare(z));
  }

  lemma {:induction false} BareFirst(buffer: string, s: string)
    requires s != []
    ensures var p := Split(Bare(buffer + [s[0]]));
      Split(Bare(buffer + s)).blocks == p.blocks + Split(Bare(p.rest + s[1..])).blocks
  {
    var z := buffer + [s[0]];
    assert z + s[1..] == buffer + s;
    BareHasNoPair(z);
    BareTwice(z, s[1..]);
    BareGoesOn(Bare(z), s[1..]);
  }

  lemma OneMoreCharacter(buffer: string, c: char)
    requires NoPair(buffer) && IndexOfBlankLine(buffer) == -1
    ensures FreshEnd(buffer + [c])
  {
    forall i | i < |buffer| - 1 ensures !PairAt(buffer + [c], i) && !BlankLineAt(buffer + [c], i) {
      assert !PairAt(buffer, i) && !BlankLineAt(buffer, i);
    }
  }

  lemma FirstCharacter(buffer: string, s: string, n: nat, later: seq<string>)
    requires s != [] && later == Slowly(s[1..], n)
    ensures Consumed(buffer, Slowly(s, n)) == Consumed(buffer + [s[0]], Nothing(n + 1) + later)
  {
    ConsumedFirst(buffer, [s[0]], Nothing(n) + later);
    NothingFirst(buffer + [s[0]], n + 1, later);
  }

  /** Cutting off blocks before the rest arrives changes nothing once the text is bare. */
  lemma {:induction false} BareGoesOn(s: string, later: string)
    requires NoPair(s)
    ensures var p := Split(s);
      Split(Bare(s + later)).blocks == p.blocks + Split(Bare(p.rest + later)).blocks
  {
    var p := Split(s);
    SettledRest(s);
    SplitJoin(s);
    JoinEndsInLineFeed(p.blocks);
    assert s + later == Join(p.blocks) + (p.rest + later);
    BareDistributes(Join(p.blocks), p.rest + later);
    BareKeeps(Join(p.blocks));
    SplitBlocksAreWhole(s);
    SplitAfterBlocks(p.blocks, Bare(p.rest + later));
  }

  // ------------------------------------------------------------------ exactly when cuts do not matter

  /** For any text: every way of cutting it, empty pieces included, gives the blocks of the
      text read in one piece exactly if these are the blocks of its bare form. */
  lemma {:induction false} CutsDoNotMatterExactly(text: string)
    ensures Split(Normalize(text)).blocks == Split(Bare(text)).blocks <==>
      forall chunks: seq<string> | Concat(chunks) == text :: Consumed("", chunks) == Split(Normalize(text)).blocks
  {
    if Split(Normalize(text)).blocks == Split(Bare(text)).blocks {
      forall chunks: seq<string> | Concat(chunks) == text
        ensures Consumed("", chunks) == Split(Normalize(text)).blocks
      {
        AgreeingIsConsumed(chunks);
      }
    } else {
      SlowestCutting(text);
    }
  }

  lemma {:induction false} AgreeingIsConsumed(chunks: seq<string>)
    requires Split(Normalize(Concat(chunks))).blocks == Split(Bare(Concat(chunks))).blocks
    ensures Consumed("", chunks) == Split(Normalize(Concat(chunks))).blocks
  {
    var text := Concat(chunks);
    var u := AgreeingIsInTwo(text);
    assert "" + text == text[..u] + text[u..];
    InTwoIsConsumed("", chunks, text[..u], text[u..]);
  }

  lemma {:induction false} SlowestCutting(text: string)
    ensures Concat(Slowly(text, |text|)) == text
    ensures Consumed("", Slowly(text, |text|)) == Split(Bare(text)).blocks
  {
    SlowlyIsConcat(text, |text|);
    SlowlyIsBare("", text, |text|);
    assert "" + text == text;
  }
}
