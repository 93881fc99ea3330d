/** The feature flags' part of the key: gathered from a map in any order, then sorted. */
module CacheKeyFlags {
  import opened Options
  import opened CacheKey

  // ------------------------------------------------------- the order of strings

  predicate Leq(a: string, b: string) {
    a == [] || (b != [] && (a[0] < b[0] || (a[0] == b[0] && Leq(a[1..], b[1..]))))
  }

  lemma LeqTotal(a: string, b: string)
    ensures Leq(a, b) || Leq(b, a)
  {
  }

  lemma {:induction false} LeqAntisymmetric(a: string, b: string)
    requires Leq(a, b) && Leq(b, a)
    ensures a == b
  {
    if a != [] {
      LeqAntisymmetric(a[1..], b[1..]);
      assert a == [a[0]] + a[1..] && b == [b[0]] + b[1..];
    }
  }

  lemma LeqTransitive(a: string, b: string, c: string)
    requires Leq(a, b) && Leq(b, c)
    ensures Leq(a, c)
  {
  }

  ghost predicate Sorted(s: seq<string>) {
    forall i, j :: 0 <= i < j < |s| ==> Leq(s[i], s[j])
  }

  lemma LeastIsFirst(a: seq<string>, b: seq<string>)
    requires Sorted(a) && Sorted(b) && multiset(a) == multiset(b) && a != []
    ensures b != [] && a[0] == b[0]
  {
    assert a[0] in multiset(a) && |multiset(a)| == |a| && |multiset(b)| == |b|;
    assert b[0] in multiset(b);
    LeqTotal(a[0], a[0]);
    LeqTotal(b[0], b[0]);
    assert a[0] in b && b[0] in a;
    assert Leq(a[0], b[0]) && Leq(b[0], a[0]);
    LeqAntisymmetric(a[0], b[0]);
  }

  lemma {:induction false} SortedIsUnique(a: seq<string>, b: seq<string>)
    requires Sorted(a) && Sorted(b) && multiset(a) == multiset(b)
    ensures a == b
  {
    if a == [] {
      assert |multiset(b)| == |b|;
    } else {
      LeastIsFirst(a, b);
      assert a == [a[0]] + a[1..] && b == [b[0]] + b[1..];
      assert multiset(a[1..]) == multiset(a) - multiset{a[0]} == multiset(b[1..]);
      SortedIsUnique(a[1..], b[1..]);
    }
  }

  /** Stands for the library's sort, of which only the contract is used. */
  method SortStrings(s: seq<string>) returns (r: seq<string>)
    ensures Sorted(r) && multiset(r) == multiset(s)
  {
    r := [];
    for i := 0 to |s|
      invariant Sorted(r) && multiset(r) == multiset(s[..i])
    {
      assert s[..i + 1] == s[..i] + [s[i]];
      r := Insert(r, s[i]);
    }
    assert s[..|s|] == s;
  }

  method Insert(s: seq<string>, x: string) returns (r: seq<string>)
    requires Sorted(s)
    ensures Sorted(r) && multiset(r) == multiset(s) + multiset{x}
  {
    var i := |s|;
    while i > 0 && !Leq(s[i - 1], x)
      invariant 0 <= i <= |s|
      invariant forall j :: i <= j < |s| ==> Leq(x, s[j])
    {
      LeqTotal(s[i - 1], x);
      i := i - 1;
    }
    forall j | 0 <= j < i ensures Leq(s[j], x) {
      if j < i - 1 {
        LeqTransitive(s[j], s[i - 1], x);
      }
    }
    InsertSorted(s, x, i);
    assert s == s[..i] + s[i..];
    r := s[..i] + [x] + s[i..];
  }

  lemma InsertSorted(s: seq<string>, x: string, i: nat)
    requires Sorted(s) && i <= |s|
    requires forall j :: 0 <= j < i ==> Leq(s[j], x)
    requires forall j :: i <= j < |s| ==> Leq(x, s[j])
    ensures Sorted(s[..i] + [x] + s[i..])
  {
    var r := s[..i] + [x] + s[i..];
    forall j, k | 0 <= j < k < |r| ensures Leq(r[j], r[k]) {
      assert r[j] == if j < i then s[j] else if j == i then x else s[j - 1];
      assert r[k] == if k < i then s[k] else if k == i then x else s[k - 1];
    }
  }

  // ----------------------------------------------------------------- the flags

  datatype FeatureFlag = FeatureFlag(name: string, onByDefault: bool)

  function FormatWithValue(flag: FeatureFlag, enabled: bool): string {
    flag.name + ":" + if enabled then "true" else "false"
  }

  /** The flags that are written as `x`. */
  ghost function WrittenAs(flags: map<FeatureFlag, bool>, among: set<FeatureFlag>, x: string): set<FeatureFlag> {
    set f | f in among && f in flags && FormatWithValue(f, flags[f]) == x
  }

  /** `r` lists the flags: each string as often as there are flags written so. */
  ghost predicate Lists(flags: map<FeatureFlag, bool>, among: set<FeatureFlag>, r: seq<string>) {
    forall x :: multiset(r)[x] == |WrittenAs(flags, among, x)|
  }

  ghost predicate FlagList(flags: map<FeatureFlag, bool>, r: seq<string>) {
    Sorted(r) && Lists(flags, flags.Keys, r)
  }

  lemma WrittenOneMore(flags: map<FeatureFlag, bool>, among: set<FeatureFlag>, f: FeatureFlag, x: string)
    requires f in flags && f !in among
    ensures |WrittenAs(flags, among + {f}, x)|
            == |WrittenAs(flags, among, x)| + if x == FormatWithValue(f, flags[f]) then 1 else 0
  {
    if x == FormatWithValue(f, flags[f]) {
      assert WrittenAs(flags, among + {f}, x) == WrittenAs(flags, among, x) + {f};
    } else {
      assert WrittenAs(flags, among + {f}, x) == WrittenAs(flags, among, x);
    }
  }

  lemma ListsOneMore(flags: map<FeatureFlag, bool>, among: set<FeatureFlag>, r: seq<string>, f: FeatureFlag)
    requires f in flags && f !in among && Lists(flags, among, r)
    ensures Lists(flags, among + {f}, r + [FormatWithValue(f, flags[f])])
  {
    var y := FormatWithValue(f, flags[f]);
    assert multiset(r + [y]) == multiset(r) + multiset{y};
    forall x ensures multiset(r + [y])[x] == |WrittenAs(flags, among + {f}, x)| {
      assert multiset(r)[x] == |WrittenAs(flags, among, x)|;
      WrittenOneMore(flags, among, f, x);
    }
  }

  /** Walks the map in an order of its own and sorts what it gathered. */
  method SortedFlags(flags: map<FeatureFlag, bool>) returns (r: seq<string>)
    ensures FlagList(flags, r)
  {
    var gathered, todo := [], flags.Keys;
    ghost var done: set<FeatureFlag> := {};
    while todo != {}
      invariant done !! todo && done + todo == flags.Keys && Lists(flags, done, gathered)
      decreases |todo|
    {
      var f :| f in todo;
      ListsOneMore(flags, done, gathered, f);
      gathered := gathered + [FormatWithValue(f, flags[f])];
      todo := todo - {f};
      done := done + {f};
    }
    assert done == flags.Keys;
    r := SortStrings(gathered);
  }

  /** Whatever the order in which the map was walked, the sorted list is the same. */
  lemma FlagListIsUnique(flags: map<FeatureFlag, bool>, a: seq<string>, b: seq<string>)
    requires FlagList(flags, a) && FlagList(flags, b)
    ensures a == b
  {
    assert multiset(a) == multiset(b) by {
      assert forall x :: multiset(a)[x] == multiset(b)[x];
    }
    SortedIsUnique(a, b);
  }

  function Join(s: seq<string>): string {
    if s == [] then "" else if |s| == 1 then s[0] else s[0] + " " + Join(s[1..])
  }

  ghost predicate NoSpaces(s: seq<string>) {
    forall i :: 0 <= i < |s| ==> s[i] != "" && ' ' !in s[i]
  }

  lemma JoinHead(a: seq<string>)
    requires NoSpaces(a) && a != []
    ensures |a[0]| <= |Join(a)| && Join(a)[..|a[0]|] == a[0]
    ensures |a| == 1 ==> Join(a) == a[0]
    ensures |a| > 1 ==> |Join(a)| > |a[0]| && Join(a)[|a[0]|] == ' ' && Join(a)[|a[0]| + 1..] == Join(a[1..])
  {
  }

  lemma {:induction false} JoinIsInjective(a: seq<string>, b: seq<string>)
    requires NoSpaces(a) && NoSpaces(b) && Join(a) == Join(b)
    ensures a == b
  {
    if a == [] || b == [] {
      if a != [] {
        JoinHead(a);
      } else if b != [] {
        JoinHead(b);
      }
    } else {
      JoinHead(a);
      JoinHead(b);
      assert |a[0]| == |b[0]|;
      if |a| > 1 {
        JoinIsInjective(a[1..], b[1..]);
        assert a == [a[0]] + a[1..] && b == [b[0]] + b[1..];
      }
    }
  }

  method Feed(fields: seq<string>) returns (hashed: string)
    ensures hashed == Encode(fields)
  {
    hashed := "";
    for i := 0 to |fields|
      invariant hashed + Encode(fields[i..]) == Encode(fields)
    {
      var rest := Encode(fields[i + 1..]);
      assert fields[i..][0] == fields[i] && fields[i..][1..] == fields[i + 1..];
      assert hashed + (PrefixLen(fields[i]) + rest) == hashed + PrefixLen(fields[i]) + rest;
      hashed := hashed + PrefixLen(fields[i]);
    }
    assert hashed + [] == hashed;
  }

  /** The bytes that the composite key's hash is fed; none if the call has no method or
      its request cannot be marshalled. */
  method CompositeKey(version: string, method': Option<string>, genID: string, request: Option<string>,
                      flags: map<FeatureFlag, bool>) returns (fed: Option<string>)
    ensures fed.None? <==> method'.None? || request.None?
    ensures fed.Some? ==>
              exists r ::
                && FlagList(flags, r)
                && fed.value == Encode(Fields(Key(version, method'.value, genID, request.value, Join(r))))
  {
    if method'.None? || request.None? {
      return None;
    }
    var list := SortedFlags(flags);
    var key := Key(version, method'.value, genID, request.value, Join(list));
    var hashed := Feed(Fields(key));
    return Some(hashed);
  }

  ghost predicate PlainNames(flags: map<FeatureFlag, bool>) {
    forall f :: f in flags ==> ' ' !in f.name
  }

  /** The flags with this name and value. */
  ghost function Valued(flags: map<FeatureFlag, bool>, name: string, enabled: bool): set<FeatureFlag> {
    set f | f in flags && f.name == name && flags[f] == enabled
  }

  /** As many flags of each name and value in the one as in the other. */
  ghost predicate SameFlags(flags: map<FeatureFlag, bool>, others: map<FeatureFlag, bool>) {
    forall name, enabled :: |Valued(flags, name, enabled)| == |Valued(others, name, enabled)|
  }

  /** What is written for a flag tells its name and its value. */
  lemma FormatIsInjective(f: FeatureFlag, enabled: bool, g: FeatureFlag, on: bool)
    ensures FormatWithValue(f, enabled) == FormatWithValue(g, on) <==> f.name == g.name && enabled == on
  {
    var x, y := FormatWithValue(f, enabled), FormatWithValue(g, on);
    if x == y {
      assert x[|x| - 2] == if enabled then 'u' else 's';
      assert y[|y| - 2] == if on then 'u' else 's';
      assert x[..|f.name|] == f.name && y[..|g.name|] == g.name;
    }
  }

  lemma WrittenAsValued(flags: map<FeatureFlag, bool>, f: FeatureFlag, enabled: bool)
    ensures WrittenAs(flags, flags.Keys, FormatWithValue(f, enabled)) == Valued(flags, f.name, enabled)
  {
    forall g | g in flags ensures FormatWithValue(g, flags[g]) == FormatWithValue(f, enabled)
                                  <==> g.name == f.name && flags[g] == enabled {
      FormatIsInjective(g, flags[g], f, enabled);
    }
  }

  lemma SameFlagsAreWrittenAlike(flags: map<FeatureFlag, bool>, others: map<FeatureFlag, bool>)
    ensures SameFlags(flags, others)
            <==> forall x :: |WrittenAs(flags, flags.Keys, x)| == |WrittenAs(others, others.Keys, x)|
  {
    forall name, enabled
      ensures var x := FormatWithValue(FeatureFlag(name, false), enabled);
              && WrittenAs(flags, flags.Keys, x) == Valued(flags, name, enabled)
              && WrittenAs(others, others.Keys, x) == Valued(others, name, enabled)
    {
      WrittenAsValued(flags, FeatureFlag(name, false), enabled);
      WrittenAsValued(others, FeatureFlag(name, false), enabled);
    }
    if SameFlags(flags, others) {
      forall x ensures |WrittenAs(flags, flags.Keys, x)| == |WrittenAs(others, others.Keys, x)| {
        var written := WrittenAs(flags, flags.Keys, x) + WrittenAs(others, others.Keys, x);
        if f :| f in written {
          var enabled := if f in WrittenAs(flags, flags.Keys, x) then flags[f] else others[f];
          assert x == FormatWithValue(FeatureFlag(f.name, false), enabled);
        }
      }
    }
  }

  lemma FlagListIsPlain(flags: map<FeatureFlag, bool>, r: seq<string>)
    requires PlainNames(flags) && FlagList(flags, r)
    ensures NoSpaces(r)
  {
    forall i | 0 <= i < |r| ensures r[i] != "" && ' ' !in r[i] {
      assert r[i] in multiset(r) && |WrittenAs(flags, flags.Keys, r[i])| > 0;
      var f :| f in WrittenAs(flags, flags.Keys, r[i]);
    }
  }

  /** Two lookups feed the hash the same bytes exactly when they agree in version,
      method, generation, request and flags; the order of a map never shows. */
  lemma BytesIdentifyTheCall(k: Key, flags: map<FeatureFlag, bool>, r: seq<string>,
                             l: Key, others: map<FeatureFlag, bool>, t: seq<string>)
    requires PlainNames(flags) && FlagList(flags, r) && k.flags == Join(r) && Short(Fields(k))
    requires PlainNames(others) && FlagList(others, t) && l.flags == Join(t) && Short(Fields(l))
    ensures Encode(Fields(k)) == Encode(Fields(l))
            <==> && k.version == l.version && k.method' == l.method' && k.genID == l.genID
                 && k.request == l.request && SameFlags(flags, others)
  {
    FlagListIsPlain(flags, r);
    FlagListIsPlain(others, t);
    SameFlagsAreWrittenAlike(flags, others);
    if SameFlags(flags, others) {
      FlagListIsUnique(flags, r, t);
    }
    if Encode(Fields(k)) == Encode(Fields(l)) {
      KeysAreDistinct(k, l);
      JoinIsInjective(r, t);
      forall x ensures |WrittenAs(flags, flags.Keys, x)| == |WrittenAs(others, others.Keys, x)| {
        assert multiset(r)[x] == multiset(t)[x];
      }
    }
  }
}
