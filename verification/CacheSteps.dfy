/** Every file operation keeps the invariant of the lease protocol. */
module CacheSteps {
  import opened Options
  import opened CacheLease

  // ------------------------------------------- what every action leaves in place

  /** What an action leaves of everybody else's: the history grows at its end, and
      no call, no lease and no pending file but the actor's own changes. */
  ghost predicate Frame(s: State, t: State) {
    && t.step == s.step + 1 && t.versions == s.versions + [s.version]
    && s.clock <= t.clock && s.version <= t.version
    && (forall g :: g in s.installed ==> g in t.installed && t.installed[g] == s.installed[g])
    && (forall g :: g in s.gens ==> g in t.gens && t.gens[g] == s.gens[g])
    && s.floor <= t.floor <= s.step
  }

  ghost predicate SameCall(x: Op, y: Op) {
    y.put == x.put && y.req == x.req && y.began == x.began && y.floor == x.floor
  }

  ghost predicate OpFrame(s: State, p: OpId, t: State)
  {
    && Frame(s, t)
    && t.clock == s.clock && t.version == s.version && t.floor == s.floor
    && t.leases == s.leases && t.srcs == s.srcs && t.files == s.files
    && p in t.ops && t.ops == s.ops[p := t.ops[p]]
    && (p in s.ops ==> SameCall(s.ops[p], t.ops[p]))
    && (t.pending == s.pending
        || (p in s.ops && s.ops[p].stage.Unlink? && t.pending == s.pending - {s.ops[p].stage.file}))
    && (|| (t.latest == s.latest && t.installed == s.installed)
        || (p in s.ops && s.ops[p].stage.NewGen? && t.latest == Some(s.ops[p].stage.gen)
            && t.installed == s.installed[s.ops[p].stage.gen := s.step]))
  }

  lemma InstallHasFrame(s: State, p: OpId)
    requires GensOk(s) && OpsOk(s) && Enabled(s, Call(p, InstallGen))
    ensures OpFrame(s, p, Apply(s, Call(p, InstallGen)))
  {
    assert OpOk(s, p, s.ops[p]);
  }

  lemma ScanHasFrame(s: State, p: OpId, ca: CallAction)
    requires GensOk(s) && Enabled(s, Call(p, ca))
    requires ca.Begin? || ca.Stat? || ca.CompareAge? || ca.RemoveStale? || ca.FinishScan?
    ensures OpFrame(s, p, Apply(s, Call(p, ca)))
  {
  }

  lemma UseHasFrame(s: State, p: OpId, ca: CallAction)
    requires GensOk(s) && Enabled(s, Call(p, ca)) && (ca.ReadGen? || ca.Open? || ca.Store? || ca.Fail?)
    ensures OpFrame(s, p, Apply(s, Call(p, ca)))
  {
  }

  lemma OpHasFrame(s: State, p: OpId, ca: CallAction)
    requires GensOk(s) && OpsOk(s)
    requires Enabled(s, Call(p, ca))
    ensures OpFrame(s, p, Apply(s, Call(p, ca)))
  {
    match ca
    case InstallGen => InstallHasFrame(s, p);
    case ReadGen(_) => UseHasFrame(s, p, ca);
    case Open => UseHasFrame(s, p, ca);
    case Store(_) => UseHasFrame(s, p, ca);
    case Fail => UseHasFrame(s, p, ca);
    case _ => ScanHasFrame(s, p, ca);
  }

  ghost predicate LeaseFrame(s: State, k: LeaseId, t: State)
  {
    && Frame(s, t)
    && t.clock == s.clock
    && t.ops == s.ops && t.srcs == s.srcs && t.cache == s.cache
    && k in t.leases && t.leases == s.leases[k := t.leases[k]]
    && (if k in s.leases then LeaseExtends(s, s.leases[k], t.leases[k])
        else t.leases[k].started.None?)
    && (t.installed == s.installed
        || (k in s.leases && s.leases[k].stage.Ending?
            && t.installed == s.installed[s.leases[k].stage.gen := s.step]))
    && (|| (t.files == s.files && t.pending == s.pending
            && (k in s.leases ==> t.leases[k].started == s.leases[k].started))
        || (t.files == s.files && k in s.leases && s.leases[k].started.Some?
            && t.leases[k].wrote.Some?
            && t.pending == s.pending - {s.leases[k].file})
        || (k in s.leases && s.leases[k].started.None? && t.leases[k].started.Some?
            && t.leases[k].file !in s.files && t.leases[k].mtime == s.clock
            && t.files == s.files[t.leases[k].file := k]
            && t.pending == s.pending[t.leases[k].file := s.clock]))
  }

  ghost predicate LeaseExtends(s: State, x: Lease, y: Lease) {
    && (x.started.Some? ==> y.started == x.started && y.file == x.file && y.mtime == x.mtime)
    && (x.started.None? && y.started.Some? ==> y.started.value == s.step)
    && (x.wrote.Some? ==> y.wrote == x.wrote)
    && (x.wrote.None? && y.wrote.Some? ==> y.wrote.value == Write(s.step, s.clock))
  }

  lemma PendingHasFrame(s: State, k: LeaseId, la: LeaseAction)
    requires GensOk(s) && LeasesOk(s) && Enabled(s, OfLease(k, la)) && (la.RemovePending? || la.CreatePending?)
    ensures LeaseFrame(s, k, Apply(s, OfLease(k, la)))
  {
    assert LeaseOk(s, k, s.leases[k]);
  }

  lemma LatestHasFrame(s: State, k: LeaseId, la: LeaseAction)
    requires GensOk(s) && LeasesOk(s) && Enabled(s, OfLease(k, la)) && (la.RemoveLatest? || la.WriteLatest?)
    ensures LeaseFrame(s, k, Apply(s, OfLease(k, la)))
  {
    assert la.WriteLatest? ==> LeaseOk(s, k, s.leases[k]);
  }

  lemma PlainHasFrame(s: State, k: LeaseId, la: LeaseAction)
    requires GensOk(s) && Enabled(s, OfLease(k, la)) && (la.Mutate? || la.DrawGen? || la.Abandon?)
    ensures LeaseFrame(s, k, Apply(s, OfLease(k, la)))
  {
  }

  lemma LeaseHasFrame(s: State, k: LeaseId, la: LeaseAction)
    requires GensOk(s) && LeasesOk(s)
    requires Enabled(s, OfLease(k, la))
    ensures LeaseFrame(s, k, Apply(s, OfLease(k, la)))
  {
    if la.RemovePending? || la.CreatePending? {
      PendingHasFrame(s, k, la);
    } else if la.RemoveLatest? || la.WriteLatest? {
      LatestHasFrame(s, k, la);
    } else {
      PlainHasFrame(s, k, la);
    }
  }

  ghost predicate OtherFrame(s: State, t: State) {
    && Frame(s, t)
    && t.ops == s.ops && t.leases == s.leases && t.installed == s.installed && t.files == s.files
    && t.floor == s.floor
  }

  lemma OtherHasFrame(s: State, ea: EnvAction)
    requires GensOk(s)
    requires Enabled(s, Env(ea))
    ensures OtherFrame(s, Apply(s, Env(ea)))
  {
  }

  // ------------------------------------------------------ actions of the calls

  lemma ResponseKept(s: State, t: State, g: Gen, r: Response)
    requires Frame(s, t) && ResponseOk(s, g, r)
    ensures ResponseOk(t, g, r)
  {
  }

  lemma OpKeepsGens(s: State, p: OpId, t: State)
    requires OpFrame(s, p, t) && GensOk(s) && OpsOk(s)
    ensures GensOk(t)
  {
    if p in s.ops {
      assert OpOk(s, p, s.ops[p]);
    }
  }

  lemma OpKeepsLeases(s: State, p: OpId, t: State)
    requires OpFrame(s, p, t) && LeasesOk(s) && OpsOk(s)
    ensures LeasesOk(t)
  {
    forall l | l in t.leases ensures LeaseOk(t, l, t.leases[l]) {
      assert LeaseOk(s, l, s.leases[l]);
      if p in s.ops {
        assert OpOk(s, p, s.ops[p]);
      }
    }
  }

  lemma OpKeepsPending(s: State, p: OpId, t: State)
    requires OpFrame(s, p, t) && LeasesOk(s) && OpsOk(s) && PendingOk(s) && SourcesOk(s)
    ensures PendingOk(t) && SourcesOk(t)
  {
    if p in s.ops {
      assert OpOk(s, p, s.ops[p]);
    }
  }

  lemma OpKeepsShared(s: State, p: OpId, t: State)
    requires OpFrame(s, p, t)
    requires GensOk(s) && LeasesOk(s) && OpsOk(s) && PendingOk(s) && SourcesOk(s)
    ensures GensOk(t) && LeasesOk(t) && PendingOk(t) && SourcesOk(t)
  {
    OpKeepsGens(s, p, t);
    OpKeepsLeases(s, p, t);
    OpKeepsPending(s, p, t);
  }

  lemma OpKeepsOtherOps(s: State, p: OpId, t: State, q: OpId)
    requires OpFrame(s, p, t)
    requires OpsOk(s) && q in s.ops && q != p
    ensures OpOk(t, q, t.ops[q])
  {
    var st := s.ops[q].stage;
    assert OpOk(s, q, s.ops[q]);
    if st.Returned? && st.response.Some? {
      ResponseKept(s, t, st.gen, st.response.value);
    }
    if p in s.ops {
      assert OpOk(s, p, s.ops[p]);
    }
  }

  /** The stages of keyPath up to the decision about the pending leases. */
  lemma ScanKeepsOwnOp(s: State, p: OpId, ca: CallAction)
    requires GensOk(s) && PendingOk(s) && OpsOk(s)
    requires Enabled(s, Call(p, ca)) && OpFrame(s, p, Apply(s, Call(p, ca)))
    requires ca.Begin? || ca.Stat? || ca.CompareAge? || ca.RemoveStale? || ca.FinishScan? || ca.Fail?
    ensures OpOk(Apply(s, Call(p, ca)), p, Apply(s, Call(p, ca)).ops[p])
  {
    assert !ca.Begin? ==> OpOk(s, p, s.ops[p]);
  }

  lemma KeyKeepsOwnOp(s: State, p: OpId, ca: CallAction)
    requires GensOk(s) && OpsOk(s)
    requires Enabled(s, Call(p, ca)) && OpFrame(s, p, Apply(s, Call(p, ca)))
    requires ca.ReadGen? || ca.InstallGen?
    ensures OpOk(Apply(s, Call(p, ca)), p, Apply(s, Call(p, ca)).ops[p])
  {
    match ca
    case ReadGen(drawn) => ReadKeepsOwnOp(s, p, drawn);
    case InstallGen => InstallKeepsOwnOp(s, p);
  }

  lemma ReadKeepsOwnOp(s: State, p: OpId, drawn: Gen)
    requires GensOk(s) && OpsOk(s) && Enabled(s, Call(p, ReadGen(drawn)))
    requires OpFrame(s, p, Apply(s, Call(p, ReadGen(drawn))))
    ensures var t := Apply(s, Call(p, ReadGen(drawn))); OpOk(t, p, t.ops[p])
  {
    assert OpOk(s, p, s.ops[p]);
  }

  lemma InstallKeepsOwnOp(s: State, p: OpId)
    requires GensOk(s) && OpsOk(s) && Enabled(s, Call(p, InstallGen))
    requires OpFrame(s, p, Apply(s, Call(p, InstallGen)))
    ensures var t := Apply(s, Call(p, InstallGen)); OpOk(t, p, t.ops[p])
  {
    assert OpOk(s, p, s.ops[p]);
  }

  lemma UseKeepsOwnOp(s: State, p: OpId, ca: CallAction)
    requires OpsOk(s) && CacheOk(s)
    requires Enabled(s, Call(p, ca)) && OpFrame(s, p, Apply(s, Call(p, ca)))
    requires ca.Open? || ca.Store?
    ensures OpOk(Apply(s, Call(p, ca)), p, Apply(s, Call(p, ca)).ops[p])
  {
    assert OpOk(s, p, s.ops[p]);
    if ca.Open? && (s.ops[p].stage.gen, s.ops[p].req) in s.cache {
      ResponseKept(s, Apply(s, Call(p, ca)), s.ops[p].stage.gen, s.cache[(s.ops[p].stage.gen, s.ops[p].req)]);
    }
  }

  lemma StoreKeepsCache(s: State, p: OpId, src: SrcId)
    requires OpsOk(s) && CacheOk(s) && SourcesOk(s)
    requires Enabled(s, Call(p, Store(src))) && OpFrame(s, p, Apply(s, Call(p, Store(src))))
    ensures CacheOk(Apply(s, Call(p, Store(src))))
  {
    var t, own := Apply(s, Call(p, Store(src))), (s.ops[p].stage.gen, s.ops[p].req);
    assert OpOk(s, p, s.ops[p]);
    forall key | key in t.cache ensures ResponseOk(t, key.0, t.cache[key]) {
      if key != own {
        ResponseKept(s, t, key.0, s.cache[key]);
      }
    }
  }

  lemma ScanLeavesCache(s: State, p: OpId, ca: CallAction)
    requires Enabled(s, Call(p, ca))
    requires ca.Begin? || ca.Stat? || ca.CompareAge? || ca.RemoveStale? || ca.FinishScan?
    ensures Apply(s, Call(p, ca)).cache == s.cache
  {
    assert ApplyCall(s, p, ca).cache == s.cache;
  }

  lemma UseLeavesCache(s: State, p: OpId, ca: CallAction)
    requires CallEnabled(s, p, ca) && (ca.ReadGen? || ca.InstallGen? || ca.Open? || ca.Fail?)
    ensures ApplyCall(s, p, ca).cache == s.cache
  {
    match ca
    case ReadGen(drawn) => ReadLeavesCache(s, p, drawn);
    case InstallGen => InstallLeavesCache(s, p);
    case Open => OpenLeavesCache(s, p);
    case Fail =>
  }

  lemma SetOpLeavesCache(s: State, p: OpId, st: Stage)
    requires p in s.ops
    ensures SetOp(s, p, st).cache == s.cache
  {
  }

  lemma ReadLeavesCache(s: State, p: OpId, drawn: Gen)
    requires CallEnabled(s, p, ReadGen(drawn))
    ensures ApplyCall(s, p, ReadGen(drawn)).cache == s.cache
  {
    if s.latest.Some? {
      SetOpLeavesCache(s, p, Keyed(s.latest.value, s.step));
    } else {
      SetOpLeavesCache(s, p, NewGen(drawn));
    }
  }

  lemma InstallLeavesCache(s: State, p: OpId)
    requires CallEnabled(s, p, InstallGen)
    ensures ApplyCall(s, p, InstallGen).cache == s.cache
  {
  }

  lemma OpenLeavesCache(s: State, p: OpId)
    requires CallEnabled(s, p, Open)
    ensures ApplyCall(s, p, Open).cache == s.cache
  {
  }

  lemma OpKeepsCache(s: State, p: OpId, ca: CallAction)
    requires OpsOk(s) && CacheOk(s) && SourcesOk(s)
    requires Enabled(s, Call(p, ca)) && OpFrame(s, p, Apply(s, Call(p, ca)))
    ensures CacheOk(Apply(s, Call(p, ca)))
  {
    if ca.Store? {
      StoreKeepsCache(s, p, ca.src);
    } else {
      if ca.ReadGen? || ca.InstallGen? || ca.Open? || ca.Fail? {
        UseLeavesCache(s, p, ca);
      } else {
        ScanLeavesCache(s, p, ca);
      }
      var t := Apply(s, Call(p, ca));
      forall key | key in t.cache ensures ResponseOk(t, key.0, t.cache[key]) {
        ResponseKept(s, t, key.0, s.cache[key]);
      }
    }
  }

  lemma OpKeepsOtherShields(s: State, p: OpId, t: State, q: OpId, l: LeaseId)
    requires OpFrame(s, p, t)
    requires q in s.ops && q != p && l in s.leases && Shielded(s, s.ops[q].stage, s.leases[l])
    ensures Shielded(t, t.ops[q].stage, t.leases[l])
  {
  }

  lemma ScanKeepsOwnShield(s: State, p: OpId, ca: CallAction, l: LeaseId)
    requires PendingOk(s) && OpsOk(s) && LeasesOk(s)
    requires Enabled(s, Call(p, ca)) && OpFrame(s, p, Apply(s, Call(p, ca)))
    requires ca.Begin? || ca.Stat? || ca.CompareAge? || ca.RemoveStale? || ca.FinishScan? || ca.Fail?
    requires l in s.leases && s.leases[l].started.Some?
    requires !ca.Begin? ==> Shielded(s, s.ops[p].stage, s.leases[l])
    ensures Shielded(Apply(s, Call(p, ca)), Apply(s, Call(p, ca)).ops[p].stage, s.leases[l])
  {
    assert !ca.Begin? ==> OpOk(s, p, s.ops[p]);
    assert LeaseOk(s, l, s.leases[l]);
  }

  lemma KeyKeepsOwnShield(s: State, p: OpId, ca: CallAction, l: LeaseId)
    requires GensOk(s) && LeasesOk(s) && OpsOk(s)
    requires Enabled(s, Call(p, ca)) && OpFrame(s, p, Apply(s, Call(p, ca)))
    requires ca.ReadGen? || ca.InstallGen? || ca.Open? || ca.Store?
    requires l in s.leases && s.leases[l].started.Some?
    requires Shielded(s, s.ops[p].stage, s.leases[l])
    ensures Shielded(Apply(s, Call(p, ca)), Apply(s, Call(p, ca)).ops[p].stage, s.leases[l])
  {
    assert OpOk(s, p, s.ops[p]) && LeaseOk(s, l, s.leases[l]);
  }

  lemma OpKeepsOps(s: State, p: OpId, ca: CallAction)
    requires GensOk(s) && PendingOk(s) && OpsOk(s) && CacheOk(s)
    requires Enabled(s, Call(p, ca)) && OpFrame(s, p, Apply(s, Call(p, ca)))
    ensures OpsOk(Apply(s, Call(p, ca)))
  {
    var t := Apply(s, Call(p, ca));
    forall q | q in t.ops ensures OpOk(t, q, t.ops[q]) {
      if q != p {
        OpKeepsOtherOps(s, p, t, q);
      } else if ca.ReadGen? || ca.InstallGen? {
        KeyKeepsOwnOp(s, p, ca);
      } else if ca.Open? || ca.Store? {
        UseKeepsOwnOp(s, p, ca);
      } else {
        ScanKeepsOwnOp(s, p, ca);
      }
    }
  }

  lemma OpKeepsShields(s: State, p: OpId, ca: CallAction)
    requires GensOk(s) && LeasesOk(s) && PendingOk(s) && OpsOk(s) && ShieldsOk(s)
    requires Enabled(s, Call(p, ca)) && OpFrame(s, p, Apply(s, Call(p, ca)))
    ensures ShieldsOk(Apply(s, Call(p, ca)))
  {
    var t := Apply(s, Call(p, ca));
    forall q, l | q in t.ops && l in t.leases && t.leases[l].started.Some?
                  && t.leases[l].started.value < t.ops[q].began
      ensures Shielded(t, t.ops[q].stage, t.leases[l])
    {
      if q != p {
        OpKeepsOtherShields(s, p, t, q, l);
      } else if ca.ReadGen? || ca.InstallGen? || ca.Open? || ca.Store? {
        KeyKeepsOwnShield(s, p, ca, l);
      } else {
        ScanKeepsOwnShield(s, p, ca, l);
      }
    }
  }

  lemma OpKeepsInv(s: State, p: OpId, ca: CallAction)
    requires Inv(s) && Enabled(s, Call(p, ca))
    ensures Inv(Apply(s, Call(p, ca)))
  {
    OpHasFrame(s, p, ca);
    OpKeepsShared(s, p, Apply(s, Call(p, ca)));
    OpKeepsCache(s, p, ca);
    OpKeepsOps(s, p, ca);
    OpKeepsShields(s, p, ca);
  }

  // ----------------------------------------------------- actions of the leases

  lemma LeaseKeepsGens(s: State, k: LeaseId, la: LeaseAction)
    requires GensOk(s) && LeasesOk(s)
    requires Enabled(s, OfLease(k, la))
    ensures GensOk(Apply(s, OfLease(k, la)))
  {
    assert !la.RemoveLatest? ==> LeaseOk(s, k, s.leases[k]);
  }

  lemma LeaseKeepsOtherLeases(s: State, k: LeaseId, t: State, l: LeaseId)
    requires LeaseFrame(s, k, t)
    requires LeasesOk(s) && l in s.leases && l != k
    ensures LeaseOk(t, l, t.leases[l])
  {
    assert LeaseOk(s, l, s.leases[l]);
    assert k in s.leases ==> LeaseOk(s, k, s.leases[k]);
  }

  lemma LeaseKeepsOwnLease(s: State, k: LeaseId, la: LeaseAction)
    requires GensOk(s) && LeasesOk(s)
    requires Enabled(s, OfLease(k, la)) && LeaseFrame(s, k, Apply(s, OfLease(k, la)))
    ensures LeaseOk(Apply(s, OfLease(k, la)), k, Apply(s, OfLease(k, la)).leases[k])
  {
    assert !la.RemoveLatest? ==> LeaseOk(s, k, s.leases[k]);
  }

  lemma LeaseKeepsPending(s: State, k: LeaseId, t: State)
    requires LeaseFrame(s, k, t)
    requires PendingOk(s) && LeasesOk(s)
    ensures PendingOk(t)
  {
    LeaseKeepsFiles(s, k, t);
    forall l | l in t.leases && t.leases[l].started.Some? && t.leases[l].file !in t.pending
      ensures Settled(t, t.leases[l])
    {
      assert k in s.leases ==> LeaseOk(s, k, s.leases[k]);
      assert l in s.leases ==> LeaseOk(s, l, s.leases[l]);
    }
  }

  lemma LeaseKeepsFiles(s: State, k: LeaseId, t: State)
    requires LeaseFrame(s, k, t)
    requires PendingOk(s) && LeasesOk(s)
    ensures forall f :: f in t.files ==> IsLeaseFile(t, f)
    ensures forall f :: f in t.pending ==> f in t.files && t.leases[t.files[f]].mtime == t.pending[f]
  {
    assert k in s.leases ==> LeaseOk(s, k, s.leases[k]);
  }

  lemma LeaseKeepsOps(s: State, k: LeaseId, t: State, q: OpId)
    requires LeaseFrame(s, k, t)
    requires OpsOk(s) && LeasesOk(s) && q in s.ops
    ensures OpOk(t, q, t.ops[q])
  {
    var st := s.ops[q].stage;
    assert OpOk(s, q, s.ops[q]);
    assert k in s.leases ==> LeaseOk(s, k, s.leases[k]);
    if st.Returned? && st.response.Some? {
      ResponseKept(s, t, st.gen, st.response.value);
    }
  }

  lemma LeaseKeepsCacheAndSources(s: State, k: LeaseId, t: State)
    requires LeaseFrame(s, k, t)
    requires CacheOk(s) && SourcesOk(s)
    ensures CacheOk(t) && SourcesOk(t)
  {
    forall key | key in t.cache ensures ResponseOk(t, key.0, t.cache[key]) {
      ResponseKept(s, t, key.0, s.cache[key]);
    }
  }

  lemma LeaseKeepsShields(s: State, k: LeaseId, t: State, q: OpId, l: LeaseId)
    requires LeaseFrame(s, k, t)
    requires q in s.ops && l in s.leases && s.leases[l].started.Some?
    requires Shielded(s, s.ops[q].stage, s.leases[l])
    ensures Shielded(t, t.ops[q].stage, t.leases[l])
  {
  }

  lemma LeaseKeepsLeases(s: State, k: LeaseId, la: LeaseAction)
    requires GensOk(s) && LeasesOk(s)
    requires Enabled(s, OfLease(k, la)) && LeaseFrame(s, k, Apply(s, OfLease(k, la)))
    ensures LeasesOk(Apply(s, OfLease(k, la)))
  {
    var t := Apply(s, OfLease(k, la));
    forall l | l in t.leases ensures LeaseOk(t, l, t.leases[l]) {
      if l == k {
        LeaseKeepsOwnLease(s, k, la);
      } else {
        LeaseKeepsOtherLeases(s, k, t, l);
      }
    }
  }

  lemma LeaseKeepsOpsAndShields(s: State, k: LeaseId, t: State)
    requires LeaseFrame(s, k, t)
    requires LeasesOk(s) && OpsOk(s) && ShieldsOk(s)
    ensures OpsOk(t) && ShieldsOk(t)
  {
    forall q | q in t.ops ensures OpOk(t, q, t.ops[q]) {
      LeaseKeepsOps(s, k, t, q);
    }
    forall q, l | q in t.ops && l in t.leases && t.leases[l].started.Some?
                  && t.leases[l].started.value < t.ops[q].began
      ensures Shielded(t, t.ops[q].stage, t.leases[l])
    {
      assert OpOk(s, q, s.ops[q]);
      LeaseKeepsShields(s, k, t, q, l);
    }
  }

  lemma LeaseKeepsInv(s: State, k: LeaseId, la: LeaseAction)
    requires Inv(s) && Enabled(s, OfLease(k, la))
    ensures Inv(Apply(s, OfLease(k, la)))
  {
    var t := Apply(s, OfLease(k, la));
    LeaseHasFrame(s, k, la);
    LeaseKeepsGens(s, k, la);
    LeaseKeepsLeases(s, k, la);
    LeaseKeepsPending(s, k, t);
    LeaseKeepsCacheAndSources(s, k, t);
    LeaseKeepsOpsAndShields(s, k, t);
  }

  // ------------------------- the clock, the producers of streams and the walker

  lemma OtherKeepsInv(s: State, ea: EnvAction)
    requires Inv(s) && Enabled(s, Env(ea))
    ensures Inv(Apply(s, Env(ea)))
  {
    var t := Apply(s, Env(ea));
    OtherHasFrame(s, ea);
    OtherKeepsFiles(s, ea);
    OtherKeepsSources(s, ea);
    OtherKeepsRest(s, t);
    OtherKeepsOps(s, t);
  }

  lemma OtherKeepsFiles(s: State, ea: EnvAction)
    requires GensOk(s) && PendingOk(s) && LeasesOk(s)
    requires Enabled(s, Env(ea)) && OtherFrame(s, Apply(s, Env(ea)))
    ensures GensOk(Apply(s, Env(ea))) && PendingOk(Apply(s, Env(ea)))
  {
    assert forall l :: l in s.leases ==> LeaseOk(s, l, s.leases[l]);
  }

  lemma OtherKeepsSources(s: State, ea: EnvAction)
    requires SourcesOk(s) && CacheOk(s)
    requires Enabled(s, Env(ea)) && OtherFrame(s, Apply(s, Env(ea)))
    ensures SourcesOk(Apply(s, Env(ea))) && CacheOk(Apply(s, Env(ea)))
  {
    var t := Apply(s, Env(ea));
    forall key | key in t.cache ensures ResponseOk(t, key.0, t.cache[key]) {
      ResponseKept(s, t, key.0, s.cache[key]);
    }
  }

  lemma OtherKeepsRest(s: State, t: State)
    requires OtherFrame(s, t) && LeasesOk(s) && ShieldsOk(s)
    ensures LeasesOk(t) && ShieldsOk(t)
  {
    assert forall l :: l in s.leases ==> LeaseOk(s, l, s.leases[l]);
  }

  lemma OtherKeepsOps(s: State, t: State)
    requires OtherFrame(s, t) && OpsOk(s)
    ensures OpsOk(t)
  {
    forall q | q in t.ops ensures OpOk(t, q, t.ops[q]) {
      var st := s.ops[q].stage;
      assert OpOk(s, q, s.ops[q]);
      if st.Returned? && st.response.Some? {
        ResponseKept(s, t, st.gen, st.response.value);
      }
    }
  }

  lemma InvStep(s: State, a: Action)
    requires Inv(s) && Enabled(s, a)
    ensures Inv(Apply(s, a))
  {
    match a
    case Call(p, ca) => OpKeepsInv(s, p, ca);
    case OfLease(l, la) => LeaseKeepsInv(s, l, la);
    case Env(ea) => OtherKeepsInv(s, ea);
  }
}
