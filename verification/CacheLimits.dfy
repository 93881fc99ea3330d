/**
  What the hypotheses of the lease theorems are there for: runs from the empty cache in
  which one of them is missing, and the conclusion fails.
 */
module CacheLimits {
  import opened Options
  import opened CacheLease
  import opened CacheSteps
  import opened CacheRuns
  import opened CacheObject

  /** keyPath on its own, when nothing is pending. */
  lemma LookupAlone(s: State, run: seq<Action>, e: State, p: OpId, put: bool, req: Req, unused: Gen)
    returns (r: seq<Action>, t: State)
    requires Reaches(s, run, e) && p !in e.ops && unused !in e.gens && e.pending == map[]
    ensures Reaches(s, r, t) && run + [Call(p, Begin(put, req))] <= r
    ensures t.pending == map[] && t.cache == e.cache && t.srcs == e.srcs && t.leases == e.leases
    ensures t.version == e.version && t.ops.Keys == e.ops.Keys + {p} && t.gens.Keys <= e.gens.Keys + {unused}
    ensures t.ops[p].put == put && t.ops[p].req == req && t.ops[p].stage.Keyed?
    ensures t.latest == Some(t.ops[p].stage.gen)
    ensures t.ops[p].stage.gen == if e.latest.Some? then e.latest.value else unused
  {
    var e1;
    r, e1 := BeginScan(s, run, e, p, put, req);
    assert e.pending.Keys == {};
    r, t := FinishLookup(s, r, e1, p, unused);
  }

  lemma PutAlone(s: State, run: seq<Action>, e: State, p: OpId, req: Req, src: SrcId, u: Gen)
    returns (r: seq<Action>, t: State)
    requires Reaches(s, run, e) && e.pending == map[] && p !in e.ops && u !in e.gens
    requires src in e.srcs && e.srcs[src].version.Some?
    ensures Reaches(s, r, t) && run < r && t.pending == map[] && t.version == e.version
    ensures t.ops.Keys == e.ops.Keys + {p} && t.gens.Keys <= e.gens.Keys + {u}
    ensures t.latest.Some? && (t.latest.value, req) in t.cache
    ensures var x := t.cache[(t.latest.value, req)];
            x.born == e.srcs[src].born && Some(x.version) == e.srcs[src].version
  {
    var e1;
    r, e1 := LookupAlone(s, run, e, p, true, req, u);
    r, t := StoreKeyed(s, r, e1, p, src);
  }

  lemma GetAlone(s: State, run: seq<Action>, e: State, q: OpId, req: Req, v: Gen) returns (r: seq<Action>, t: State)
    requires Reaches(s, run, e) && e.pending == map[] && q !in e.ops && v !in e.gens
    requires e.latest.Some? && (e.latest.value, req) in e.cache
    ensures Reaches(s, r, t) && run + [Call(q, Begin(false, req))] <= r && t.version == e.version
    ensures Served(t, q, e.cache[(e.latest.value, req)])
  {
    var e1;
    r, e1 := LookupAlone(s, run, e, q, false, req, v);
    r, t := OpenKeyed(s, r, e1, q);
  }

  /** PutStream and then GetStream, each on its own and with or without "latest": the
      second returns the very stream stored by the first, whatever has happened since it
      was read from the repository. */
  lemma PutThenGet(s: State, run: seq<Action>, e: State, p: OpId, q: OpId, req: Req, src: SrcId, u: Gen, v: Gen)
    returns (r: seq<Action>, t: State, j: nat, response: Response)
    requires Reaches(s, run, e) && e.pending == map[]
    requires p !in e.ops && q !in e.ops && p != q && u !in e.gens && v !in e.gens && u != v
    requires src in e.srcs && e.srcs[src].version.Some?
    ensures Reaches(s, r, t) && run <= r && |run| < j < |r| && r[j] == Call(q, Begin(false, req))
    ensures Served(t, q, response) && t.version == e.version
    ensures response.born == e.srcs[src].born && response.version == e.srcs[src].version.value
  {
    var e1;
    r, e1 := PutAlone(s, run, e, p, req, src, u);
    j, response := |r|, e1.cache[(e1.latest.value, req)];
    r, t := GetAlone(s, r, e1, q, req, v);
  }

  /** The walker removes every pending file that has reached the stale age. */
  lemma {:induction false} EvictAll(s: State, run: seq<Action>, e: State) returns (r: seq<Action>, t: State)
    requires Reaches(s, run, e) && forall f :: f in e.pending ==> e.clock >= e.pending[f] + STALE_AGE
    ensures Reaches(s, r, t) && run <= r && t.pending == map[]
    ensures t.ops == e.ops && t.gens == e.gens && t.latest == e.latest && t.leases == e.leases
    decreases |e.pending|
  {
    if e.pending == map[] {
      r, t := run, e;
    } else {
      var f :| f in e.pending;
      r, t := Step(s, run, e, Env(EvictPending(f)));
      assert |t.pending| < |e.pending| by {
        assert t.pending.Keys == e.pending.Keys - {f};
        assert |t.pending| == |t.pending.Keys| && |e.pending| == |e.pending.Keys|;
      }
      r, t := EvictAll(s, r, t);
    }
  }

  /** The bound on the lease is tight: once the pending files have reached `STALE_AGE` the
      walker may remove them, and a lookup then gets a key although the leases behind them
      have written nothing. */
  lemma StaleLeaseIsIgnored(s: State, run: seq<Action>, e: State, p: OpId, put: bool, req: Req, unused: Gen)
    returns (r: seq<Action>, t: State, b: nat)
    requires Reaches(s, run, e) && p !in e.ops && unused !in e.gens
    requires forall f :: f in e.pending ==> e.clock >= e.pending[f] + STALE_AGE
    ensures Reaches(s, r, t) && run <= r && |run| <= b < |r| && r[b] == Call(p, Begin(put, req))
    ensures t.leases == e.leases && HasGen(t, p, if e.latest.Some? then e.latest.value else unused)
  {
    var e1;
    r, e1 := EvictAll(s, run, e);
    b := |r|;
    r, t := LookupAlone(s, r, e1, p, put, req, unused);
  }

  // -------------------------------------------------------- from the empty cache

  lemma ReadFirst() returns (run: seq<Action>, e: State)
    ensures Reaches(EMPTY_STATE, run, e)
    ensures e.pending == map[] && e.ops == map[] && e.gens == map[] && e.leases == map[] && e.files == map[]
    ensures e.version == 0 && 0 in e.srcs && e.srcs[0] == Source(0, Some(0))
  {
    run, e := Step(EMPTY_STATE, [], EMPTY_STATE, Env(StartSource(0)));
    run, e := Step(EMPTY_STATE, run, e, Env(ReadRepository(0)));
  }

  lemma MutateHeld(s: State, run: seq<Action>, e: State, l: LeaseId) returns (r: seq<Action>, t: State)
    requires Reaches(s, run, e) && l in e.leases && e.leases[l].stage.Held?
    ensures Reaches(s, r, t) && t.version == e.version + 1 && t.leases == e.leases && t.pending == e.pending
    ensures t.ops == e.ops && t.gens == e.gens && t.srcs == e.srcs
  {
    r, t := Step(s, run, e, OfLease(l, Mutate));
  }

  /** A stream is read from the repository, and then a lease mutates it and ends. */
  lemma LeaseAfterRead() returns (run: seq<Action>, e: State, i: nat)
    ensures Reaches(EMPTY_STATE, run, e) && i < |run| && run[i] == OfLease(0, WriteLatest)
    ensures e.pending == map[] && e.ops == map[] && e.gens.Keys == {0} && e.version == 1
    ensures 0 in e.srcs && e.srcs[0].version == Some(0) && e.srcs[0].born == 0 < i
  {
    run, e := ReadFirst();
    run, e := StartAlone(EMPTY_STATE, run, e, 0, 0);
    var t;
    run, t := MutateHeld(EMPTY_STATE, run, e, 0);
    i := |run| + 1;
    run, e := EndAlone(EMPTY_STATE, run, t, 0, 0);
    assert e.pending.Keys == {};
  }

  /** Freshness needs its hypothesis on production: there is a run in which a stream read
      before a lease wrote its generation is served to a call that begins after that, and
      shows an older repository than there is. */
  lemma EarlyStreamIsServed() returns (run: seq<Action>, i: nat, j: nat, p: OpId, r: Response)
    ensures IsRun(run) && i < j < |run| && Invalidates(run[i]) && Begins(run[j], p)
    ensures Served(At(run, |run|), p, r) && r.born < i && r.version < At(run, |run|).version
  {
    var e, t;
    run, e, i := LeaseAfterRead();
    var before := run;
    run, t, j, r := PutThenGet(EMPTY_STATE, before, e, 0, 1, 0, 0, 1, 2);
    p := 1;
    assert run[..|run|] == run && run[i] == before[i];
  }

  /** Isolation needs its bound on the lease: there is a run in which a lookup that begins
      after StartLease returned gets a key while the lease has written nothing. */
  lemma StaleLookupGetsKey() returns (run: seq<Action>, c: nat, b: nat, p: OpId, g: Gen)
    ensures IsRun(run) && c < b < |run| && Starts(run[c]) && Begins(run[b], p)
    ensures HasGen(At(run, |run|), p, g)
    ensures run[c].lease in At(run, |run|).leases && At(run, |run|).leases[run[c].lease].wrote.None?
  {
    var e, t;
    run, e := StartAlone(EMPTY_STATE, [], EMPTY_STATE, 0, 0);
    c, p, g := 1, 0, 0;
    run, t := Step(EMPTY_STATE, run, e, Env(Tick(STALE_AGE)));
    var before := run;
    run, e, b := StaleLeaseIsIgnored(EMPTY_STATE, before, t, 0, false, 0, 0);
    assert run[..|run|] == run && run[c] == before[c];
  }
}
