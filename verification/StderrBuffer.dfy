/**
  The buffer for a command's standard error: total size and line length are bounded, and
  what does not fit is cut.  The writes may split the stream anywhere.
 */
module StderrBuffer {
  import opened Options

  type Byte = bv8

  const NEWLINE: Byte := 10

  datatype Limits = Limits(buf: nat, line: nat, sep: seq<Byte>)

  /** What later writes depend on.  A full buffer takes nothing any more, and then the
      length of the current line does not matter. */
  datatype Written = Written(bytes: seq<Byte>, lineLength: nat)

  function Normal(l: Limits, bytes: seq<Byte>, lineLength: nat): Written {
    Written(bytes, if |bytes| >= l.buf then 0 else lineLength)
  }

  ghost predicate Fits(l: Limits, w: Written) {
    |w.bytes| <= l.buf && w.lineLength <= l.line
  }

  // ------------------------------------------------ one write, byte by byte

  /** Bytes over the line limit are dropped; a separator that does not fit ends the
      write, and the rest of it is lost. */
  function Fed(l: Limits, w: Written, p: seq<Byte>): Written
    decreases |p|
  {
    if p == [] || |w.bytes| >= l.buf then w
    else if p[0] == NEWLINE then
      if |w.bytes| + |l.sep| <= l.buf then Fed(l, Normal(l, w.bytes + l.sep, 0), p[1..]) else Written(w.bytes, 0)
    else if w.lineLength < l.line then Fed(l, Normal(l, w.bytes + [p[0]], w.lineLength + 1), p[1..])
    else Fed(l, w, p[1..])
  }

  function AfterWrite(l: Limits, w: Written, p: seq<Byte>): Written {
    if l.buf == 0 || l.line == 0 then w else Fed(l, w, p)
  }

  function Smaller(a: int, b: int): int {
    if a < b then a else b
  }

  /** How much of `part`, which lies within one line, the buffer takes. */
  function Room(l: Limits, w: Written, part: seq<Byte>): int {
    Smaller(|part|, Smaller(l.line - w.lineLength, l.buf - |w.bytes|))
  }

  lemma {:induction false} FedPart(l: Limits, w: Written, part: seq<Byte>, rest: seq<Byte>)
    requires Fits(l, w) && w == Normal(l, w.bytes, w.lineLength) && NEWLINE !in part
    ensures var n := Room(l, w, part);
            0 <= n <= |part|
            && Fed(l, w, part + rest) == Fed(l, Normal(l, w.bytes + part[..n], w.lineLength + n), rest)
    decreases |part|
  {
    assert w.bytes + part[..0] == w.bytes;
    if part == [] {
      assert part + rest == rest;
    } else if |w.bytes| < l.buf {
      assert (part + rest)[1..] == part[1..] + rest && part[0] in part;
      if w.lineLength < l.line {
        var next := Normal(l, w.bytes + [part[0]], w.lineLength + 1);
        if |next.bytes| < l.buf {
          FedPart(l, next, part[1..], rest);
          var n := Room(l, next, part[1..]);
          assert w.bytes + [part[0]] + part[1..][..n] == w.bytes + part[..n + 1];
          assert w.bytes + [part[0]] == w.bytes + part[..1];
        } else {
          assert [part[0]] == part[..1];
        }
      } else {
        FedPart(l, w, part[1..], rest);
      }
    }
  }

  // ------------------------------------------------------------------- in place

  method IndexByte(p: seq<Byte>, s: nat) returns (i: int)
    requires s <= |p|
    ensures i >= 0 ==> s <= i < |p| && p[i] == NEWLINE && NEWLINE !in p[s..i]
    ensures i < 0 ==> NEWLINE !in p[s..]
  {
    i := s;
    while i < |p|
      invariant s <= i <= |p| && NEWLINE !in p[s..i]
    {
      if p[i] == NEWLINE {
        return;
      }
      i := i + 1;
    }
    assert p[s..i] == p[s..];
    i := -1;
  }

  method Min(first: int, candidates: seq<int>) returns (res: int)
    ensures res <= first && (res == first || res in candidates)
    ensures forall c :: c in candidates ==> res <= c
  {
    res := first;
    for i := 0 to |candidates|
      invariant res <= first && (res == first || res in candidates)
      invariant forall j :: 0 <= j < i ==> res <= candidates[j]
    {
      if candidates[i] < res {
        res := candidates[i];
      }
    }
  }

  class Buffer {
    const limits: Limits
    var buf: seq<Byte>
    var currentLineLength: nat

    ghost predicate Valid()
      reads this
    {
      |limits.sep| > 0 && |buf| <= limits.buf && currentLineLength <= limits.line
    }

    ghost function Value(): Written
      reads this
    {
      Normal(limits, buf, currentLineLength)
    }

    constructor (limits: Limits)
      requires |limits.sep| > 0
      ensures Valid() && Value() == Written([], 0) && this.limits == limits
    {
      this.limits := limits;
      buf, currentLineLength := [], 0;
    }

    /** Takes what fits of a part of one line: no slice goes out of bounds. */
    method Append(part: seq<Byte>) returns (taken: nat)
      requires Valid()
      modifies this`buf
      ensures taken == Room(limits, Written(old(buf), currentLineLength), part) <= |part|
      ensures buf == old(buf) + part[..taken] && |buf| <= limits.buf
    {
      var line, space := limits.line - currentLineLength, limits.buf - |buf|;
      var n := Min(|part|, [line, space]);
      assert line in [line, space] && space in [line, space];
      taken := n;
      buf := buf + part[..taken];
    }

    method Write(p: seq<Byte>) returns (n: nat)
      requires Valid()
      modifies this
      ensures Valid() && Value() == AfterWrite(limits, old(Value()), p)
      ensures n == |p|
    {
      n := |p|;
      if limits.buf <= 0 || limits.line <= 0 {
        return;
      }
      var s := 0;
      assert p[0..] == p;
      while s < |p| && |buf| < limits.buf
        invariant s <= |p| && Valid()
        invariant Fed(limits, old(Value()), p) == Fed(limits, Value(), p[s..])
        decreases |p| - s
      {
        ghost var w, from := Value(), s;
        var i := IndexByte(p, s);
        if i >= 0 {
          var part := p[s..i];
          s := i + 1;
          ghost var rest := p[i..];
          assert p[from..] == part + rest;
          FedPart(limits, w, part, rest);
          var taken := Append(part);
          ghost var mid := Normal(limits, buf, w.lineLength + taken);
          assert Fed(limits, w, p[from..]) == Fed(limits, mid, rest);
          currentLineLength := 0;
          assert rest[0] == NEWLINE && rest[1..] == p[s..];
          if |buf| + |limits.sep| <= limits.buf {
            buf := buf + limits.sep;
          } else {
            break;
          }
        } else {
          var part := p[s..];
          s := |p|;
          assert p[from..] == part + [] && p[s..] == [];
          FedPart(limits, w, part, []);
          var taken := Append(part);
          currentLineLength := currentLineLength + taken;
        }
      }
    }
  }

  method NewStderrBuffer(bufLimit: int, lineLimit: int, lineSep: seq<Byte>) returns (r: Option<Buffer>)
    ensures r.None? <==> bufLimit < 0 || lineLimit < 0
    ensures r.Some? ==> fresh(r.value) && r.value.Valid() && r.value.Value() == Written([], 0)
    ensures r.Some? ==> r.value.limits == Limits(bufLimit, lineLimit, if lineSep == [] then [NEWLINE] else lineSep)
  {
    if bufLimit < 0 || lineLimit < 0 {
      return None;
    }
    var b := new Buffer(Limits(bufLimit, lineLimit, if lineSep == [] then [NEWLINE] else lineSep));
    r := Some(b);
  }
}
