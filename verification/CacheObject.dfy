/**
  The disk cache's methods over the files of one repository, updated in place.  Run
  undisturbed, each is a run of the machine in `CacheLease`: `Reaches(s, run, t)` says
  that `run` leads from `s` to `t`.
 */
module CacheObject {
  import opened Options
  import opened CacheLease
  import opened CacheSteps
  import opened CacheRuns

  /** What a step leaves of the state besides the stage of the call `p`. */
  ghost predicate Moved(s: State, t: State, p: OpId, st: Stage) {
    && p in s.ops && t.ops.Keys == s.ops.Keys && t.ops[p] == s.ops[p].(stage := st)
    && t.clock == s.clock && t.version == s.version && t.cache == s.cache && t.srcs == s.srcs
    && t.leases == s.leases && t.files == s.files
  }

  /** A cached file: what it shows of the repository, and since when it was produced. */
  datatype Content = Content(born: nat, version: nat)

  function Contents(cache: map<(Gen, Req), Response>): map<(Gen, Req), Content> {
    map k | k in cache :: Content(cache[k].born, cache[k].version)
  }

  lemma ContentsUpdate(cache: map<(Gen, Req), Response>, key: (Gen, Req), r: Response)
    ensures Contents(cache[key := r]) == Contents(cache)[key := Content(r.born, r.version)]
  {
  }

  predicate IsStale(mtime: nat, now: nat) {
    now > mtime + STALE_AGE
  }

  function Fresh(pending: map<FileId, nat>, now: nat): map<FileId, nat> {
    map f | f in pending && !IsStale(pending[f], now) :: pending[f]
  }

  lemma Step(s: State, run: seq<Action>, e: State, a: Action) returns (r: seq<Action>, t: State)
    requires Reaches(s, run, e) && Enabled(e, a)
    ensures r == run + [a] && t == Apply(e, a) && Reaches(s, r, t)
  {
    r, t := run + [a], Apply(e, a);
    ReachesStep(s, run, e, a, t);
  }

  lemma StatEntry(e: State, p: OpId, f: FileId) returns (t: State)
    requires p in e.ops && e.ops[p].stage.Scan? && f in e.ops[p].stage.todo && f in e.pending
    ensures Enabled(e, Call(p, Stat(f))) && t == Apply(e, Call(p, Stat(f)))
    ensures var st := e.ops[p].stage; Moved(e, t, p, Aging(st.todo - {f}, st.found, f, e.pending[f]))
    ensures t.pending == e.pending && t.latest == e.latest && t.gens == e.gens
  {
    t := Apply(e, Call(p, Stat(f)));
  }

  lemma AgeEntry(e: State, p: OpId) returns (t: State)
    requires p in e.ops && e.ops[p].stage.Aging?
    ensures Enabled(e, Call(p, CompareAge)) && t == Apply(e, Call(p, CompareAge))
    ensures var st := e.ops[p].stage;
            Moved(e, t, p, if IsStale(st.mtime, e.clock) then Unlink(st.todo, st.found, st.file)
                           else Scan(st.todo, true))
    ensures t.pending == e.pending && t.latest == e.latest && t.gens == e.gens
  {
    t := Apply(e, Call(p, CompareAge));
  }

  lemma UnlinkEntry(e: State, p: OpId) returns (t: State)
    requires p in e.ops && e.ops[p].stage.Unlink?
    ensures Enabled(e, Call(p, RemoveStale)) && t == Apply(e, Call(p, RemoveStale))
    ensures Moved(e, t, p, Scan(e.ops[p].stage.todo, e.ops[p].stage.found))
    ensures t.pending == e.pending - {e.ops[p].stage.file} && t.latest == e.latest && t.gens == e.gens
  {
    t := Apply(e, Call(p, RemoveStale));
  }

  /** One turn of the loop over the pending files. */
  lemma {:induction false} VisitEntry(s: State, run: seq<Action>, e: State, p: OpId, f: FileId)
    returns (r: seq<Action>, t: State)
    requires Reaches(s, run, e)
    requires p in e.ops && e.ops[p].stage.Scan? && f in e.ops[p].stage.todo && f in e.pending
    ensures Reaches(s, r, t) && t.latest == e.latest && t.gens == e.gens
    ensures var st, stale := e.ops[p].stage, IsStale(e.pending[f], e.clock);
            && t.pending == (if stale then e.pending - {f} else e.pending)
            && Moved(e, t, p, Scan(st.todo - {f}, st.found || !stale))
  {
    var e1 := StatEntry(e, p, f);
    ReachesStep(s, run, e, Call(p, Stat(f)), e1);
    var r1 := run + [Call(p, Stat(f))];
    t := AgeEntry(e1, p);
    ReachesStep(s, r1, e1, Call(p, CompareAge), t);
    r := r1 + [Call(p, CompareAge)];
    if IsStale(e.pending[f], e.clock) {
      var e2, r2 := t, r;
      t := UnlinkEntry(e2, p);
      ReachesStep(s, r2, e2, Call(p, RemoveStale), t);
      r := r2 + [Call(p, RemoveStale)];
    }
  }

  lemma {:induction false} BeginScan(s: State, run: seq<Action>, e: State, p: OpId, put: bool, req: Req)
    returns (r: seq<Action>, t: State)
    requires Reaches(s, run, e) && p !in e.ops
    ensures Reaches(s, r, t) && r == run + [Call(p, Begin(put, req))]
    ensures t.ops.Keys == e.ops.Keys + {p}
    ensures t.ops[p].put == put && t.ops[p].req == req && t.ops[p].stage == Scan(e.pending.Keys, false)
    ensures t.pending == e.pending && t.latest == e.latest && t.gens == e.gens && t.clock == e.clock
    ensures t.cache == e.cache && t.srcs == e.srcs && t.leases == e.leases && t.version == e.version
  {
    r, t := Step(s, run, e, Call(p, Begin(put, req)));
  }

  lemma {:induction false} EndScan(s: State, run: seq<Action>, e: State, p: OpId) returns (r: seq<Action>, t: State)
    requires Reaches(s, run, e) && p in e.ops && e.ops[p].stage.Scan? && e.ops[p].stage.todo == {}
    ensures run <= r && Reaches(s, r, t) && Moved(e, t, p, if e.ops[p].stage.found then Failed else ReadLatest)
    ensures t.pending == e.pending && t.latest == e.latest && t.gens == e.gens
  {
    r, t := Step(s, run, e, Call(p, FinishScan));
  }

  lemma ReadMissing(e: State, p: OpId, unused: Gen) returns (t: State)
    requires p in e.ops && e.ops[p].stage.ReadLatest? && unused !in e.gens && e.latest.None?
    ensures Enabled(e, Call(p, ReadGen(unused))) && t == Apply(e, Call(p, ReadGen(unused)))
    ensures Moved(e, t, p, NewGen(unused)) && t.pending == e.pending && t.latest.None?
    ensures t.gens.Keys == e.gens.Keys + {unused}
  {
    t := Apply(e, Call(p, ReadGen(unused)));
  }

  lemma ReadPresent(e: State, p: OpId, unused: Gen) returns (t: State)
    requires p in e.ops && e.ops[p].stage.ReadLatest? && unused !in e.gens && e.latest.Some?
    ensures Enabled(e, Call(p, ReadGen(unused))) && t == Apply(e, Call(p, ReadGen(unused)))
    ensures Moved(e, t, p, Keyed(e.latest.value, e.step)) && t.pending == e.pending && t.latest == e.latest
    ensures t.gens == e.gens
  {
    t := Apply(e, Call(p, ReadGen(unused)));
  }

  lemma InstallMissing(e: State, p: OpId) returns (t: State)
    requires p in e.ops && e.ops[p].stage.NewGen?
    ensures Enabled(e, Call(p, InstallGen)) && t == Apply(e, Call(p, InstallGen))
    ensures var g := e.ops[p].stage.gen;
            Moved(e, t, p, Keyed(g, e.step)) && t.pending == e.pending && t.latest == Some(g)
    ensures t.gens == e.gens
  {
    t := Apply(e, Call(p, InstallGen));
  }

  /** currentGenID: the generation in "latest", or a new one that is installed. */
  lemma TakeGen(s: State, run: seq<Action>, e: State, p: OpId, unused: Gen) returns (r: seq<Action>, t: State, at: nat)
    requires Reaches(s, run, e) && p in e.ops && e.ops[p].stage.ReadLatest? && unused !in e.gens
    ensures run <= r && Reaches(s, r, t) && t.pending == e.pending && t.gens.Keys <= e.gens.Keys + {unused}
    ensures var g := if e.latest.Some? then e.latest.value else unused;
            t.latest == Some(g) && Moved(e, t, p, Keyed(g, at))
  {
    at := e.step;
    if e.latest.Some? {
      t := ReadPresent(e, p, unused);
      ReachesStep(s, run, e, Call(p, ReadGen(unused)), t);
      r := run + [Call(p, ReadGen(unused))];
    } else {
      var e1 := ReadMissing(e, p, unused);
      ReachesStep(s, run, e, Call(p, ReadGen(unused)), e1);
      at := e1.step;
      t := InstallMissing(e1, p);
      ReachesStep(s, run + [Call(p, ReadGen(unused))], e1, Call(p, InstallGen), t);
      r := run + [Call(p, ReadGen(unused))] + [Call(p, InstallGen)];
    }
  }

  /** After the loop: an error if a valid lease was found, otherwise a key. */
  lemma FinishLookup(s: State, run: seq<Action>, e: State, p: OpId, unused: Gen) returns (r: seq<Action>, t: State)
    requires Reaches(s, run, e) && p in e.ops && e.ops[p].stage.Scan? && e.ops[p].stage.todo == {} && unused !in e.gens
    ensures run <= r && Reaches(s, r, t) && t.pending == e.pending && t.cache == e.cache && t.srcs == e.srcs
    ensures t.version == e.version && t.leases == e.leases && t.gens.Keys <= e.gens.Keys + {unused}
    ensures t.ops.Keys == e.ops.Keys && t.ops[p].put == e.ops[p].put && t.ops[p].req == e.ops[p].req
    ensures e.ops[p].stage.found ==> t.ops[p].stage.Failed? && t.latest == e.latest
    ensures !e.ops[p].stage.found ==>
              var g := if e.latest.Some? then e.latest.value else unused;
              t.latest == Some(g) && t.ops[p].stage.Keyed? && t.ops[p].stage.gen == g
  {
    r, t := EndScan(s, run, e, p);
    if !e.ops[p].stage.found {
      var at;
      r, t, at := TakeGen(s, r, t, p, unused);
    }
  }

  /** `run` leads to `t`, and since `begun` only the pending files and the stage of `p`
      have changed. */
  ghost predicate Scanning(s: State, run: seq<Action>, begun: State, t: State, p: OpId, st: Stage) {
    Reaches(s, run, t) && Moved(begun, t, p, st) && t.latest == begun.latest && t.gens == begun.gens
  }

  lemma VisitScanning(s: State, run: seq<Action>, begun: State, e: State, p: OpId, todo: set<FileId>, found: bool,
                      f: FileId)
    returns (r: seq<Action>, t: State)
    requires Scanning(s, run, begun, e, p, Scan(todo, found)) && f in todo && f in e.pending
    ensures var stale := IsStale(e.pending[f], begun.clock);
            && Scanning(s, r, begun, t, p, Scan(todo - {f}, found || !stale))
            && t.pending == if stale then e.pending - {f} else e.pending
  {
    r, t := VisitEntry(s, run, e, p, f);
  }

  /** The files outside `todo` have been visited: the stale ones are gone. */
  ghost predicate Scanned(listed: map<FileId, nat>, pending: map<FileId, nat>, todo: set<FileId>, found: bool,
                          now: nat) {
    && todo <= pending.Keys && pending.Keys <= listed.Keys
    && (forall f :: f in pending ==> pending[f] == listed[f])
    && (forall f :: f in listed && f !in todo ==> (f in pending <==> !IsStale(listed[f], now)))
    && (found <==> pending.Keys - todo != {})
  }

  lemma ScannedOne(listed: map<FileId, nat>, pending: map<FileId, nat>, todo: set<FileId>, found: bool, now: nat,
                   f: FileId)
    requires Scanned(listed, pending, todo, found, now) && f in todo
    ensures IsStale(pending[f], now) ==> Scanned(listed, pending - {f}, todo - {f}, found, now)
    ensures !IsStale(pending[f], now) ==> Scanned(listed, pending, todo - {f}, true, now)
  {
    assert (pending - {f}).Keys - (todo - {f}) == pending.Keys - todo;
    assert f in pending.Keys - (todo - {f});
  }

  lemma ScannedAll(listed: map<FileId, nat>, pending: map<FileId, nat>, found: bool, now: nat)
    requires Scanned(listed, pending, {}, found, now)
    ensures pending == Fresh(listed, now) && (found <==> pending.Keys != {})
  {
    assert pending.Keys - {} == pending.Keys;
  }

  class CacheDirectory {
    var latest: Option<Gen>
    var pending: map<FileId, nat>
    var responses: map<(Gen, Req), Content>

    ghost predicate Shows(s: State)
      reads this
    {
      latest == s.latest && pending == s.pending && responses == Contents(s.cache)
    }

    constructor ()
      ensures Shows(EMPTY_STATE)
    {
      latest, pending, responses := None, map[], map[];
    }

    /** The loop over "pending": stale files are removed. */
    method ScanPending(p: OpId, now: nat, ghost s: State, ghost before: seq<Action>, ghost begun: State)
      returns (anyValidPending: bool, ghost run: seq<Action>, ghost t: State)
      requires Reaches(s, before, begun) && Shows(begun) && now == begun.clock
      requires p in begun.ops && begun.ops[p].stage == Scan(pending.Keys, false)
      modifies this`pending
      ensures Reaches(s, run, t) && Shows(t) && Moved(begun, t, p, Scan({}, anyValidPending)) && t.gens == begun.gens
      ensures pending == Fresh(old(pending), now) && (anyValidPending <==> pending.Keys != {})
    {
      run, t := before, begun;
      var todo := pending.Keys;
      anyValidPending := false;
      assert pending.Keys - todo == {};
      while todo != {}
        invariant Scanning(s, run, begun, t, p, Scan(todo, anyValidPending)) && pending == t.pending
        invariant Scanned(old(pending), pending, todo, anyValidPending, now)
        decreases |todo|
      {
        var f :| f in todo;
        run, t := VisitScanning(s, run, begun, t, p, todo, anyValidPending, f);
        ScannedOne(old(pending), pending, todo, anyValidPending, now, f);
        todo := todo - {f};
        if IsStale(pending[f], now) {
          pending := pending - {f};
          continue;
        }
        anyValidPending := true;
      }
      ScannedAll(old(pending), pending, anyValidPending, now);
    }

    /** Any pending file that is not stale is an error; otherwise the generation in
        "latest" is taken, or `unused` installed. */
    method KeyPath(p: OpId, put: bool, req: Req, now: nat, unused: Gen, ghost s: State)
      returns (gen: Option<Gen>, ghost run: seq<Action>, ghost t: State)
      requires Shows(s) && now == s.clock && p !in s.ops && unused !in s.gens
      modifies this
      ensures Reaches(s, run, t) && Shows(t) && responses == old(responses) && t.srcs == s.srcs
      ensures p in t.ops && t.ops[p].put == put && t.ops[p].req == req
      ensures if gen.Some? then t.ops[p].stage.Keyed? && t.ops[p].stage.gen == gen.value else t.ops[p].stage.Failed?
      ensures pending == Fresh(old(pending), now) && (gen.None? <==> pending.Keys != {})
      ensures gen.Some? ==> gen == latest == Some(if old(latest).Some? then old(latest).value else unused)
      ensures gen.None? ==> latest == old(latest)
    {
      ghost var begun;
      run, begun := BeginScan(s, [], s, p, put, req);
      var anyValidPending;
      anyValidPending, run, t := ScanPending(p, now, s, run, begun);
      run, t := FinishLookup(s, run, t, p, unused);
      if anyValidPending {
        return None, run, t;
      }
      if latest.None? {
        latest := Some(unused);
      }
      gen := latest;
    }

    /** What is stored under the current generation, unless a lease is pending. */
    method GetStream(p: OpId, req: Req, now: nat, unused: Gen, ghost s: State)
      returns (content: Option<Content>, ghost run: seq<Action>, ghost t: State)
      requires Shows(s) && now == s.clock && p !in s.ops && unused !in s.gens
      modifies this
      ensures Reaches(s, run, t) && Shows(t)
      ensures content.Some? ==> exists r :: Served(t, p, r) && content.value == Content(r.born, r.version)
      ensures var gen := if old(latest).Some? then old(latest).value else unused;
              content == if Fresh(old(pending), now).Keys == {} && (gen, req) in old(responses)
                         then Some(old(responses)[(gen, req)]) else None
    {
      var gen;
      gen, run, t := KeyPath(p, false, req, now, unused, s);
      if gen.None? {
        return None, run, t;
      }
      run, t := OpenKeyed(s, run, t, p);
      content := if (gen.value, req) in responses then Some(responses[(gen.value, req)]) else None;
    }

    /** Stores the stream under the current generation, unless a lease is pending. */
    method PutStream(p: OpId, req: Req, content: Content, now: nat, unused: Gen, ghost s: State, ghost src: SrcId)
      returns (ok: bool, ghost run: seq<Action>, ghost t: State)
      requires Shows(s) && now == s.clock && p !in s.ops && unused !in s.gens
      requires src in s.srcs && s.srcs[src] == Source(content.born, Some(content.version))
      modifies this
      ensures Reaches(s, run, t) && Shows(t)
      ensures ok <==> Fresh(old(pending), now).Keys == {}
      ensures var gen := if old(latest).Some? then old(latest).value else unused;
              responses == if ok then old(responses)[(gen, req) := content] else old(responses)
    {
      var gen;
      gen, run, t := KeyPath(p, true, req, now, unused, s);
      if gen.None? {
        return false, run, t;
      }
      ghost var e := t;
      run, t := StoreKeyed(s, run, e, p, src);
      ContentsUpdate(e.cache, (gen.value, req), Response(content.born, content.version, e.ops[p].stage.at));
      responses := responses[(gen.value, req) := content];
      ok := true;
    }

    method StartLease(file: FileId, now: nat, ghost s: State, ghost l: LeaseId)
      returns (ghost run: seq<Action>, ghost t: State)
      requires Shows(s) && now == s.clock && l !in s.leases && file !in s.files
      modifies this
      ensures Reaches(s, run, t) && Shows(t) && l in t.leases && t.leases[l].stage.Held? && t.leases[l].file == file
      ensures latest == None && pending == old(pending)[file := now] && responses == old(responses)
    {
      latest := None;
      pending := pending[file := now];
      run, t := StartAlone(s, [], s, l, file);
    }

    /** Answers whether the pending file was still there. */
    method EndLease(file: FileId, drawn: Gen, ghost s: State, ghost l: LeaseId)
      returns (found: bool, ghost run: seq<Action>, ghost t: State)
      requires Shows(s) && l in s.leases && s.leases[l].stage.Held? && s.leases[l].file == file && drawn !in s.gens
      modifies this
      ensures Reaches(s, run, t) && Shows(t) && l in t.leases && t.leases[l].stage.Ended?
      ensures latest == Some(drawn) && pending == old(pending) - {file} && responses == old(responses)
      ensures found <==> file in old(pending)
    {
      latest := Some(drawn);
      found := file in pending;
      pending := pending - {file};
      run, t := EndAlone(s, [], s, l, drawn);
    }
  }

  lemma {:induction false} OpenKeyed(s: State, run: seq<Action>, e: State, p: OpId) returns (r: seq<Action>, t: State)
    requires Reaches(s, run, e) && p in e.ops && e.ops[p].stage.Keyed? && !e.ops[p].put
    ensures run <= r && Reaches(s, r, t) && t.latest == e.latest && t.pending == e.pending && t.cache == e.cache
    ensures t.version == e.version
    ensures var key := (e.ops[p].stage.gen, e.ops[p].req); key in e.cache ==> Served(t, p, e.cache[key])
  {
    r, t := Step(s, run, e, Call(p, Open));
  }

  lemma {:induction false} StoreKeyed(s: State, run: seq<Action>, e: State, p: OpId, src: SrcId)
    returns (r: seq<Action>, t: State)
    requires Reaches(s, run, e) && p in e.ops && e.ops[p].stage.Keyed? && e.ops[p].put
    requires src in e.srcs && e.srcs[src].version.Some?
    ensures run <= r && Reaches(s, r, t) && t.latest == e.latest && t.pending == e.pending
    ensures t.version == e.version && t.ops.Keys == e.ops.Keys && t.gens == e.gens
    ensures var st := e.ops[p].stage;
            t.cache == e.cache[(st.gen, e.ops[p].req) := Response(e.srcs[src].born, e.srcs[src].version.value, st.at)]
  {
    r, t := Step(s, run, e, Call(p, Store(src)));
  }

  /** What a lease changes beyond its files, whatever it does. */
  ghost predicate SameElsewhere(e: State, t: State) {
    t.cache == e.cache && t.srcs == e.srcs && t.ops == e.ops && t.version == e.version && t.clock == e.clock
  }

  ghost predicate LeaseIn(t: State, l: LeaseId, file: FileId, stage: LeaseStage) {
    l in t.leases && t.leases[l].stage == stage && t.leases[l].file == file
  }

  predicate Adds(run: seq<Action>, r: seq<Action>, n: nat) {
    |r| == |run| + n && forall i :: 0 <= i < |run| ==> r[i] == run[i]
  }

  lemma {:induction false} StartAlone(s: State, run: seq<Action>, e: State, l: LeaseId, file: FileId)
    returns (r: seq<Action>, t: State)
    requires Reaches(s, run, e) && l !in e.leases && file !in e.files
    ensures Reaches(s, r, t) && Adds(run, r, 2) && r[|run| + 1] == OfLease(l, CreatePending(file))
    ensures t.latest == None && t.pending == e.pending[file := e.clock] && t.gens == e.gens && SameElsewhere(e, t)
    ensures LeaseIn(t, l, file, Held) && t.leases[l].wrote.None?
  {
    r, t := Step(s, run, e, OfLease(l, RemoveLatest));
    r, t := Step(s, r, t, OfLease(l, CreatePending(file)));
  }

  lemma {:induction false} EndAlone(s: State, run: seq<Action>, e: State, l: LeaseId, drawn: Gen)
    returns (r: seq<Action>, t: State)
    requires Reaches(s, run, e) && l in e.leases && e.leases[l].stage.Held? && drawn !in e.gens
    ensures Reaches(s, r, t) && Adds(run, r, 3) && r[|run| + 1] == OfLease(l, WriteLatest)
    ensures LeaseIn(t, l, e.leases[l].file, Ended)
    ensures t.latest == Some(drawn) && t.pending == e.pending - {e.leases[l].file}
    ensures t.gens.Keys == e.gens.Keys + {drawn} && SameElsewhere(e, t)
  {
    var e1;
    r, e1 := DrawAndWrite(s, run, e, l, drawn);
    r, t := Step(s, r, e1, OfLease(l, RemovePending));
  }

  lemma {:induction false} DrawAndWrite(s: State, run: seq<Action>, e: State, l: LeaseId, drawn: Gen)
    returns (r: seq<Action>, t: State)
    requires Reaches(s, run, e) && l in e.leases && e.leases[l].stage.Held? && drawn !in e.gens
    ensures Reaches(s, r, t) && Adds(run, r, 2) && r[|run| + 1] == OfLease(l, WriteLatest)
    ensures LeaseIn(t, l, e.leases[l].file, Wrote) && t.latest == Some(drawn) && t.pending == e.pending
    ensures t.gens.Keys == e.gens.Keys + {drawn} && SameElsewhere(e, t)
  {
    var e1 := DrawStep(e, l, drawn);
    ReachesStep(s, run, e, OfLease(l, DrawGen(drawn)), e1);
    t := WriteStep(e1, l);
    ReachesStep(s, run + [OfLease(l, DrawGen(drawn))], e1, OfLease(l, WriteLatest), t);
    r := run + [OfLease(l, DrawGen(drawn))] + [OfLease(l, WriteLatest)];
  }

  lemma {:induction false} DrawStep(e: State, l: LeaseId, drawn: Gen) returns (t: State)
    requires l in e.leases && e.leases[l].stage.Held? && drawn !in e.gens
    ensures Enabled(e, OfLease(l, DrawGen(drawn))) && t == Apply(e, OfLease(l, DrawGen(drawn)))
    ensures LeaseIn(t, l, e.leases[l].file, Ending(drawn)) && t.pending == e.pending
    ensures t.gens.Keys == e.gens.Keys + {drawn} && SameElsewhere(e, t)
  {
    t := Apply(e, OfLease(l, DrawGen(drawn)));
  }

  lemma {:induction false} WriteStep(e: State, l: LeaseId) returns (t: State)
    requires l in e.leases && e.leases[l].stage.Ending?
    ensures Enabled(e, OfLease(l, WriteLatest)) && t == Apply(e, OfLease(l, WriteLatest))
    ensures LeaseIn(t, l, e.leases[l].file, Wrote) && t.pending == e.pending
    ensures t.latest == Some(e.leases[l].stage.gen) && t.gens == e.gens && SameElsewhere(e, t)
  {
    t := Apply(e, OfLease(l, WriteLatest));
  }
}
