/**
  The disk cache's composite key: five strings, each prefixed with its length in
  hexadecimal, are fed to a hash.  Strings are byte strings.
 */
module CacheKey {
  import opened Options

  const PREFIX := 8

  // ------------------------------------------------------------ hexadecimal

  const DIGITS: string := "0123456789abcdef"

  function Value(c: char): Option<nat> {
    if '0' <= c <= '9' then Some((c as int) - ('0' as int))
    else if 'a' <= c <= 'f' then Some((c as int) - ('a' as int) + 10)
    else None
  }

  lemma DigitValue(d: nat)
    requires d < 16
    ensures Value(DIGITS[d]) == Some(d)
  {
  }

  /** The hexadecimal digits of `n`, padded with zeros to at least `width` of them. */
  function Hex(n: nat, width: nat): (s: string)
    requires width > 0
    decreases n, width
  {
    if n < 16 && width == 1 then [DIGITS[n]]
    else Hex(n / 16, if width == 1 then 1 else width - 1) + [DIGITS[n % 16]]
  }

  function Number(s: string): Option<nat> {
    if s == [] then Some(0) else
    var front, last := Number(s[..|s| - 1]), Value(s[|s| - 1]);
    if front.Some? && last.Some? then Some(front.value * 16 + last.value) else None
  }

  function Power16(k: nat): nat {
    if k == 0 then 1 else 16 * Power16(k - 1)
  }

  lemma NumberStep(front: string, n: nat)
    requires Number(front) == Some(n / 16)
    ensures Number(front + [DIGITS[n % 16]]) == Some(n)
  {
    DigitValue(n % 16);
    assert (front + [DIGITS[n % 16]])[..|front|] == front;
  }

  lemma {:induction false} HexReadsBack(n: nat, width: nat)
    requires width > 0
    ensures Number(Hex(n, width)) == Some(n)
    decreases n, width
  {
    if n < 16 && width == 1 {
      NumberStep([], n);
      assert [] + [DIGITS[n]] == [DIGITS[n]];
    } else {
      var w := if width == 1 then 1 else width - 1;
      HexReadsBack(n / 16, w);
      NumberStep(Hex(n / 16, w), n);
    }
  }

  lemma {:induction false} HexWidth(n: nat, width: nat)
    requires width > 0 && n < Power16(width)
    ensures |Hex(n, width)| == width
    decreases width
  {
    if width > 1 {
      HexWidth(n / 16, width - 1);
    } else {
      assert Power16(1) == 16 * Power16(0);
    }
  }

  // -------------------------------------------------------------- five fields

  /** What the hash is fed for one field. */
  function PrefixLen(s: string): string {
    Hex(|s|, PREFIX) + s
  }

  datatype Key = Key(version: string, method': string, genID: string, request: string, flags: string)

  function Fields(k: Key): seq<string> {
    [k.version, k.method', k.genID, k.request, k.flags]
  }

  function Encode(fields: seq<string>): string {
    if fields == [] then [] else PrefixLen(fields[0]) + Encode(fields[1..])
  }

  /** Reads fields back, as many as there are. */
  function Decode(s: string): Option<seq<string>>
    decreases |s|
  {
    if s == [] then Some([])
    else if |s| < PREFIX then None
    else
      var n := Number(s[..PREFIX]);
      if n.None? || PREFIX + n.value > |s| then None else
      var rest := Decode(s[PREFIX + n.value..]);
      if rest.None? then None else Some([s[PREFIX..PREFIX + n.value]] + rest.value)
  }

  ghost predicate Short(fields: seq<string>) {
    forall i :: 0 <= i < |fields| ==> |fields[i]| < 0x1_0000_0000
  }

  lemma PrefixReadsBack(s: string, rest: string)
    requires |s| < 0x1_0000_0000
    ensures var t := PrefixLen(s) + rest;
            && |t| == PREFIX + |s| + |rest| && Number(t[..PREFIX]) == Some(|s|)
            && t[PREFIX..PREFIX + |s|] == s && t[PREFIX + |s|..] == rest
  {
    assert Power16(8) == 0x1_0000_0000 by {
      assert Power16(4) == 0x1_0000;
    }
    HexWidth(|s|, PREFIX);
    HexReadsBack(|s|, PREFIX);
    var t := PrefixLen(s) + rest;
    assert t[..PREFIX] == Hex(|s|, PREFIX);
  }

  lemma {:induction false} DecodeEncode(fields: seq<string>)
    requires Short(fields)
    ensures Decode(Encode(fields)) == Some(fields)
  {
    if fields != [] {
      DecodeEncode(fields[1..]);
      PrefixReadsBack(fields[0], Encode(fields[1..]));
      assert fields == [fields[0]] + fields[1..];
    }
  }

  /** The bytes fed to the hash determine all five fields. */
  lemma KeysAreDistinct(k: Key, l: Key)
    requires Short(Fields(k)) && Short(Fields(l)) && Encode(Fields(k)) == Encode(Fields(l))
    ensures k == l
  {
    DecodeEncode(Fields(k));
    DecodeEncode(Fields(l));
    assert Fields(k)[0] == k.version && Fields(k)[1] == k.method' && Fields(k)[2] == k.genID;
    assert Fields(k)[3] == k.request && Fields(k)[4] == k.flags;
  }
}
