/** What the buffer shows of a stream, however the writes split it. */
module StderrStreams {
  import opened StderrBuffer

  function Take(s: seq<Byte>, n: nat): seq<Byte> {
    if |s| <= n then s else s[..n]
  }

  function Flatten(chunks: seq<seq<Byte>>): seq<Byte> {
    if chunks == [] then [] else Flatten(chunks[..|chunks| - 1]) + chunks[|chunks| - 1]
  }

  function Writes(l: Limits, chunks: seq<seq<Byte>>): Written {
    if chunks == [] then Written([], 0) else AfterWrite(l, Writes(l, chunks[..|chunks| - 1]), chunks[|chunks| - 1])
  }

  /** The bytes of `s` before the first newline. */
  function FirstLine(s: seq<Byte>): (line: seq<Byte>)
    ensures |line| <= |s| && line == s[..|line|] && NEWLINE !in line
    ensures |line| < |s| ==> s[|line|] == NEWLINE
  {
    if s == [] || s[0] == NEWLINE then [] else [s[0]] + FirstLine(s[1..])
  }

  /** The stream with each line cut to the line limit, of any total length. */
  function Rendered(l: Limits, s: seq<Byte>): seq<Byte>
    decreases |s|
  {
    var line := FirstLine(s);
    Take(line, l.line) + if |line| == |s| then [] else l.sep + Rendered(l, s[|line| + 1..])
  }

  // --------------------------------------------- the same, one byte at a time

  function Bytewise(l: Limits, lineLength: nat, s: seq<Byte>): seq<Byte>
    decreases |s|
  {
    if s == [] then []
    else if s[0] == NEWLINE then l.sep + Bytewise(l, 0, s[1..])
    else if lineLength < l.line then [s[0]] + Bytewise(l, lineLength + 1, s[1..])
    else Bytewise(l, lineLength, s[1..])
  }

  function LineAfter(l: Limits, lineLength: nat, s: seq<Byte>): (r: nat)
    ensures lineLength <= l.line ==> r <= l.line
    decreases |s|
  {
    if s == [] then lineLength
    else LineAfter(l, if s[0] == NEWLINE then 0 else if lineLength < l.line then lineLength + 1 else lineLength, s[1..])
  }

  lemma {:induction false} BytewiseSplit(l: Limits, lineLength: nat, p: seq<Byte>, q: seq<Byte>)
    ensures Bytewise(l, lineLength, p + q) == Bytewise(l, lineLength, p) + Bytewise(l, LineAfter(l, lineLength, p), q)
    ensures LineAfter(l, lineLength, p + q) == LineAfter(l, LineAfter(l, lineLength, p), q)
    decreases |p|
  {
    if p == [] {
      assert p + q == q;
    } else {
      assert (p + q)[1..] == p[1..] + q;
      var next := if p[0] == NEWLINE then 0 else if lineLength < l.line then lineLength + 1 else lineLength;
      BytewiseSplit(l, next, p[1..], q);
    }
  }

  lemma {:induction false} BytewiseLine(l: Limits, lineLength: nat, line: seq<Byte>)
    requires NEWLINE !in line && lineLength <= l.line
    ensures Bytewise(l, lineLength, line) == Take(line, l.line - lineLength)
    decreases |line|
  {
    if line != [] {
      assert line[0] in line;
      if lineLength < l.line {
        BytewiseLine(l, lineLength + 1, line[1..]);
      } else {
        BytewiseLine(l, lineLength, line[1..]);
      }
    }
  }

  lemma {:induction false} RenderedIsBytewise(l: Limits, s: seq<Byte>)
    ensures Rendered(l, s) == Bytewise(l, 0, s)
    decreases |s|
  {
    var line := FirstLine(s);
    BytewiseLine(l, 0, line);
    if |line| == |s| {
      assert s == line;
    } else {
      var rest := s[|line| + 1..];
      assert s == line + s[|line|..] && s[|line|..][0] == NEWLINE && s[|line|..][1..] == rest;
      BytewiseSplit(l, 0, line, s[|line|..]);
      RenderedIsBytewise(l, rest);
    }
  }

  // --------------------------------------------------- separators of one byte

  lemma TakeTake(a: seq<Byte>, b: seq<Byte>, n: nat)
    ensures Take(Take(a, n) + b, n) == Take(a + b, n)
  {
  }

  lemma TakeFull(a: seq<Byte>, b: seq<Byte>, n: nat)
    requires |a| == n
    ensures Take(a + b, n) == a
  {
  }

  /** What one byte adds to a buffer that is not full, and the line length after it. */
  function Piece(l: Limits, lineLength: nat, x: Byte): (seq<Byte>, nat) {
    if x == NEWLINE then (l.sep, 0) else if lineLength < l.line then ([x], lineLength + 1) else ([], lineLength)
  }

  lemma {:induction false} FedStep(l: Limits, w: Written, p: seq<Byte>)
    requires |l.sep| == 1 && p != [] && |w.bytes| < l.buf
    ensures var (piece, n) := Piece(l, w.lineLength, p[0]);
            && Fed(l, w, p) == Fed(l, Normal(l, w.bytes + piece, n), p[1..])
            && Bytewise(l, w.lineLength, p) == piece + Bytewise(l, n, p[1..])
            && LineAfter(l, w.lineLength, p) == LineAfter(l, n, p[1..])
  {
    assert w.bytes + [] == w.bytes;
    assert [] + Bytewise(l, w.lineLength, p[1..]) == Bytewise(l, w.lineLength, p[1..]);
  }

  lemma {:induction false} FedIsBytewise(l: Limits, w: Written, p: seq<Byte>)
    requires |l.sep| == 1 && Fits(l, w) && w == Normal(l, w.bytes, w.lineLength)
    ensures Fed(l, w, p) ==
            Normal(l, Take(w.bytes + Bytewise(l, w.lineLength, p), l.buf), LineAfter(l, w.lineLength, p))
    decreases |p|
  {
    if p == [] {
      assert w.bytes + [] == w.bytes;
    } else if |w.bytes| >= l.buf {
      TakeFull(w.bytes, Bytewise(l, w.lineLength, p), l.buf);
    } else {
      var (piece, n) := Piece(l, w.lineLength, p[0]);
      var next, rest := Normal(l, w.bytes + piece, n), Bytewise(l, n, p[1..]);
      FedStep(l, w, p);
      assert w.bytes + (piece + rest) == next.bytes + rest;
      if |next.bytes| < l.buf {
        FedIsBytewise(l, next, p[1..]);
      } else {
        TakeFull(next.bytes, rest, l.buf);
      }
    }
  }

  lemma {:induction false} WritesAreBytewise(l: Limits, chunks: seq<seq<Byte>>)
    requires |l.sep| == 1 && l.buf > 0 && l.line > 0
    ensures Fits(l, Writes(l, chunks))
    ensures Writes(l, chunks) ==
            Normal(l, Take(Bytewise(l, 0, Flatten(chunks)), l.buf), LineAfter(l, 0, Flatten(chunks)))
  {
    if chunks != [] {
      var before, p := chunks[..|chunks| - 1], chunks[|chunks| - 1];
      WritesAreBytewise(l, before);
      var w := Writes(l, before);
      FedIsBytewise(l, w, p);
      BytewiseSplit(l, 0, Flatten(before), p);
      var shown, more := Bytewise(l, 0, Flatten(before)), Bytewise(l, LineAfter(l, 0, Flatten(before)), p);
      TakeTake(shown, more, l.buf);
      if |w.bytes| >= l.buf {
        assert Take(w.bytes + more, l.buf) == w.bytes;
      }
    }
  }

  /** With a separator of one byte, any sequence of writes leaves the first bytes of the
      whole stream with each line cut to the line limit. */
  lemma WritesShowTheStream(l: Limits, chunks: seq<seq<Byte>>)
    requires |l.sep| == 1
    ensures Writes(l, chunks).bytes == if l.line == 0 then [] else Take(Rendered(l, Flatten(chunks)), l.buf)
  {
    if l.buf > 0 && l.line > 0 {
      WritesAreBytewise(l, chunks);
      RenderedIsBytewise(l, Flatten(chunks));
    } else {
      NothingWritten(l, chunks);
    }
  }

  lemma {:induction false} NothingWritten(l: Limits, chunks: seq<seq<Byte>>)
    requires l.buf == 0 || l.line == 0
    ensures Writes(l, chunks) == Written([], 0)
  {
    if chunks != [] {
      NothingWritten(l, chunks[..|chunks| - 1]);
    }
  }

  // -------------------------------------------------------- longer separators

  /** Whether the buffer shows the same of a stream however the writes split it. */
  ghost predicate ChunkBlind(l: Limits) {
    forall a: seq<seq<Byte>>, b: seq<seq<Byte>> :: Flatten(a) == Flatten(b) ==> Writes(l, a).bytes == Writes(l, b).bytes
  }

  /** From any line start with space left, some input leads to a buffer that is not full
      but has no room for a separator. */
  lemma {:induction false} ReachGap(l: Limits, w: Written) returns (base: seq<Byte>, gap: Written)
    requires |l.sep| >= 2 && l.line > 0 && |w.bytes| < l.buf && w.lineLength == 0
    ensures l.buf - |l.sep| < |gap.bytes| < l.buf
    ensures forall rest :: Fed(l, w, base + rest) == Fed(l, gap, rest)
    decreases l.buf - |w.bytes|
  {
    if l.buf - |l.sep| < |w.bytes| {
      base, gap := [], w;
      assert forall rest: seq<Byte> :: [] + rest == rest;
    } else if l.buf - |l.sep| == |w.bytes| {
      base, gap := [0], Written(w.bytes + [0], 1);
      assert forall rest: seq<Byte> :: ([0] + rest)[1..] == rest;
    } else {
      var next := Written(w.bytes + l.sep, 0);
      var base';
      base', gap := ReachGap(l, next);
      base := [NEWLINE] + base';
      forall rest: seq<Byte> ensures Fed(l, w, base + rest) == Fed(l, gap, rest) {
        assert (base + rest)[1..] == base' + rest;
      }
    }
  }

  lemma LongSeparatorsSplit(l: Limits)
    requires |l.sep| >= 2 && l.buf > 0 && l.line > 0
    ensures !ChunkBlind(l)
  {
    var start := Written([], 0);
    var base, gap := ReachGap(l, start);
    var first, both := base + [NEWLINE], base + [NEWLINE, 0];
    var one, two: seq<seq<Byte>> := [both], [first, [0]];
    assert one[..0] == [] && two[..1] == [first] && [first][..0] == [];
    assert Flatten([first]) == [] + first == first;
    assert Flatten(one) == Flatten(two);
    assert Writes(l, [first]) == Fed(l, gap, [NEWLINE]) == Written(gap.bytes, 0);
    assert Fed(l, gap, [NEWLINE, 0]) == Written(gap.bytes, 0);
    assert Writes(l, one).bytes == gap.bytes;
    assert Writes(l, two).bytes == gap.bytes + [0];
  }

  /** The buffer is blind to the split of the stream into writes exactly when it takes
      nothing at all or its separator is one byte long. */
  lemma ChunkBlindIff(l: Limits)
    requires |l.sep| > 0
    ensures ChunkBlind(l) <==> l.buf == 0 || l.line == 0 || |l.sep| == 1
  {
    if l.buf == 0 || l.line == 0 {
      forall a: seq<seq<Byte>> ensures Writes(l, a) == Written([], 0) {
        NothingWritten(l, a);
      }
    } else if |l.sep| == 1 {
      forall a: seq<seq<Byte>> ensures Writes(l, a).bytes == Take(Rendered(l, Flatten(a)), l.buf) {
        WritesShowTheStream(l, a);
      }
    } else {
      LongSeparatorsSplit(l);
    }
  }
}
