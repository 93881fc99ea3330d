/**
  The lock-free invalidation protocol of the disk cache of one repository, as a
  state machine.  Every action is one file operation (or one local decision) of
  the code: a directory listing, a stat, a read, a rename, a removal.  Any number
  of `GetStream` and `PutStream` calls and of leases are interleaved, together
  with the clock and the walker that deletes old files.

  History is kept in the state: `step` counts the actions taken so far, and every
  record carries the step at which the events that matter happened.
 */
module CacheLease {
  import opened Options

  type Gen = nat        // a generation ID, the content of the file "latest"
  type FileId = nat     // the name of a file in the directory "pending"
  type OpId = nat       // one call of GetStream or PutStream
  type LeaseId = nat    // one StartLease ... EndLease
  type SrcId = nat      // one stream handed to PutStream
  type Req = nat        // the remaining fields of the cache key

  /** One hour, in nanoseconds: the age at which a pending file is stale. */
  const STALE_AGE: nat := 3_600_000_000_000

  /** A response being produced from the repository: the step at which its production
      began, and the version of the repository it shows, once that has been read. */
  datatype Source = Source(born: nat, version: Option<nat>)

  /** A cached response, with the step at which the PutStream that stored it had
      computed its key. */
  datatype Response = Response(born: nat, version: nat, keyed: nat)

  /** Where a call of GetStream or PutStream is. */
  datatype Stage =
    | Scan(todo: set<FileId>, found: bool)                  // walking the listing of "pending"
    | Aging(todo: set<FileId>, found: bool, file: FileId, mtime: nat)  // one entry was statted
    | Unlink(todo: set<FileId>, found: bool, file: FileId)  // that entry is stale, remove it
    | ReadLatest                                            // no valid lease was seen
    | NewGen(gen: Gen)                                      // "latest" was missing; rename to come
    | Keyed(gen: Gen, at: nat)                              // the key path is known
    | Returned(gen: Gen, response: Option<Response>)        // the file was opened, or was not there
    | Stored(gen: Gen, at: nat)                             // the stream was committed to the cache
    | Failed

  /** `floor` is the last invalidation that preceded the call. */
  datatype Op = Op(put: bool, req: Req, began: nat, floor: nat, stage: Stage)

  datatype LeaseStage = Starting | Held | Ending(gen: Gen) | Wrote | Ended | Abandoned

  /** `started` is the step at which StartLease created the pending file `file`,
      whose modification time is `mtime`. */
  datatype Lease = Lease(
    stage: LeaseStage, started: Option<nat>, file: FileId, mtime: nat, wrote: Option<Write>)

  /** EndLease's rename of "latest": its step and the clock at that moment. */
  datatype Write = Write(at: nat, clock: nat)

  datatype Owner = OpOwner(op: OpId) | LeaseOwner(lease: LeaseId)

  datatype State = State(
    step: nat, clock: nat, version: nat,
    versions: seq<nat>,           // the repository's version before each step so far
    floor: nat,                   // the last step at which a lease removed or wrote "latest"
    latest: Option<Gen>, pending: map<FileId, nat>, cache: map<(Gen, Req), Response>,
    ops: map<OpId, Op>, leases: map<LeaseId, Lease>, srcs: map<SrcId, Source>,
    gens: map<Gen, Owner>,        // every generation ID ever drawn, with who drew it
    files: map<FileId, LeaseId>,  // every pending file ever created
    installed: map<Gen, nat>)     // the step at which a generation became "latest"

  /** keyPath, as called by GetStream and PutStream, and what they do with the key. */
  datatype CallAction =
    | Begin(put: bool, req: Req)  // ReadDir of "pending"
    | Stat(file: FileId)          // Info() of a listed entry
    | CompareAge                  // time.Since(info.ModTime()) > staleAge
    | RemoveStale                 // os.Remove of the stale entry
    | FinishScan                  // ErrPendingExists, or go on
    | ReadGen(drawn: Gen)         // ReadFile of "latest", drawing an ID if it is missing
    | InstallGen                  // updateLatest's rename
    | Open                        // GetStream opens the response
    | Store(src: SrcId)           // PutStream's rename
    | Fail                        // any I/O error

  /** StartLease, the mutation and EndLease. */
  datatype LeaseAction =
    | RemoveLatest
    | CreatePending(file: FileId)
    | Mutate
    | DrawGen(drawn: Gen)
    | WriteLatest                 // updateLatest's rename
    | RemovePending
    | Abandon                     // an error or a crash at any point

  /** The clock, the producers of streams, the walker and moveAndClear. */
  datatype EnvAction =
    | Tick(ns: nat)
    | StartSource(src: SrcId)
    | ReadRepository(src: SrcId)
    | EvictResponse(key: (Gen, Req))
    | EvictLatest
    | EvictPending(file: FileId)

  datatype Action =
    | Call(op: OpId, ca: CallAction)
    | OfLease(lease: LeaseId, la: LeaseAction)
    | Env(ea: EnvAction)

  const EMPTY_STATE := State(0, 0, 0, [], 0, None, map[], map[], map[], map[], map[], map[], map[], map[])

  predicate Terminal(st: Stage) {
    st.Returned? || st.Stored? || st.Failed?
  }

  predicate CallEnabled(s: State, p: OpId, a: CallAction) {
    if a.Begin? then p !in s.ops else
    && p in s.ops
    && var st := s.ops[p].stage;
    match a
    case Stat(f) => st.Scan? && f in st.todo
    case CompareAge => st.Aging?
    case RemoveStale => st.Unlink?
    case FinishScan => st.Scan? && st.todo == {}
    case ReadGen(drawn) => st.ReadLatest? && drawn !in s.gens
    case InstallGen => st.NewGen?
    case Open => st.Keyed? && !s.ops[p].put
    case Store(src) => st.Keyed? && s.ops[p].put && src in s.srcs && s.srcs[src].version.Some?
    case Fail => !Terminal(st)
    case Begin(_, _) => false
  }

  predicate LeaseEnabled(s: State, l: LeaseId, a: LeaseAction) {
    if a.RemoveLatest? then l !in s.leases else
    && l in s.leases
    && var st := s.leases[l].stage;
    match a
    case CreatePending(f) => st.Starting? && f !in s.files
    case Mutate => st.Held?
    case DrawGen(drawn) => st.Held? && drawn !in s.gens
    case WriteLatest => st.Ending?
    case RemovePending => st.Wrote?
    case Abandon => true
    case RemoveLatest => false
  }

  predicate EnvEnabled(s: State, a: EnvAction) {
    match a
    case StartSource(src) => src !in s.srcs
    case ReadRepository(src) => src in s.srcs && s.srcs[src].version.None?
    case EvictResponse(key) => key in s.cache
    case EvictPending(f) => f in s.pending && s.clock >= s.pending[f] + STALE_AGE
    case _ => true
  }

  predicate Enabled(s: State, a: Action) {
    match a
    case Call(p, ca) => CallEnabled(s, p, ca)
    case OfLease(l, la) => LeaseEnabled(s, l, la)
    case Env(ea) => EnvEnabled(s, ea)
  }

  function SetOp(s: State, p: OpId, st: Stage): (r: State)
    requires p in s.ops
  {
    s.(ops := s.ops[p := s.ops[p].(stage := st)])
  }

  function SetLease(s: State, l: LeaseId, lease: Lease): (r: State) {
    s.(leases := s.leases[l := lease])
  }

  /** os.Rename of a temporary file holding `g` onto "latest". */
  function Install(s: State, g: Gen): (r: State) {
    s.(latest := Some(g), installed := s.installed[g := s.step])
  }

  function ApplyCall(s: State, p: OpId, a: CallAction): (r: State)
    requires CallEnabled(s, p, a)
  {
    match a
    case Begin(put, req) =>
      s.(ops := s.ops[p := Op(put, req, s.step, s.floor, Scan(s.pending.Keys, false))])
    case Stat(f) =>
      var st := s.ops[p].stage;
      SetOp(s, p, if f in s.pending then Aging(st.todo - {f}, st.found, f, s.pending[f])
                  else Scan(st.todo - {f}, st.found))
    case CompareAge =>
      var st := s.ops[p].stage;
      SetOp(s, p, if s.clock > st.mtime + STALE_AGE then Unlink(st.todo, st.found, st.file)
                  else Scan(st.todo, true))
    case RemoveStale =>
      var st := s.ops[p].stage;
      SetOp(s, p, Scan(st.todo, st.found)).(pending := s.pending - {st.file})
    case FinishScan =>
      SetOp(s, p, if s.ops[p].stage.found then Failed else ReadLatest)
    case ReadGen(drawn) =>
      if s.latest.Some? then SetOp(s, p, Keyed(s.latest.value, s.step))
      else SetOp(s, p, NewGen(drawn)).(gens := s.gens[drawn := OpOwner(p)])
    case InstallGen =>
      var g := s.ops[p].stage.gen;
      SetOp(Install(s, g), p, Keyed(g, s.step))
    case Open =>
      var g := s.ops[p].stage.gen;
      var key := (g, s.ops[p].req);
      SetOp(s, p, Returned(g, if key in s.cache then Some(s.cache[key]) else None))
    case Store(src) =>
      var st := s.ops[p].stage;
      var response := Response(s.srcs[src].born, s.srcs[src].version.value, st.at);
      SetOp(s, p, Stored(st.gen, st.at)).(cache := s.cache[(st.gen, s.ops[p].req) := response])
    case Fail => SetOp(s, p, Failed)
  }

  function ApplyLease(s: State, l: LeaseId, a: LeaseAction): (r: State)
    requires LeaseEnabled(s, l, a)
  {
    match a
    case RemoveLatest =>
      SetLease(s, l, Lease(Starting, None, 0, 0, None)).(latest := None, floor := s.step)
    case CreatePending(f) =>
      SetLease(s, l, s.leases[l].(stage := Held, started := Some(s.step), file := f, mtime := s.clock))
      .(pending := s.pending[f := s.clock], files := s.files[f := l])
    case Mutate => s.(version := s.version + 1)
    case DrawGen(drawn) =>
      SetLease(s, l, s.leases[l].(stage := Ending(drawn))).(gens := s.gens[drawn := LeaseOwner(l)])
    case WriteLatest =>
      var lease := s.leases[l];
      SetLease(Install(s, lease.stage.gen), l,
               lease.(stage := Wrote, wrote := Some(Write(s.step, s.clock)))).(floor := s.step)
    case RemovePending =>
      SetLease(s, l, s.leases[l].(stage := Ended)).(pending := s.pending - {s.leases[l].file})
    case Abandon => SetLease(s, l, s.leases[l].(stage := Abandoned))
  }

  function ApplyEnv(s: State, a: EnvAction): (r: State)
    requires EnvEnabled(s, a)
  {
    match a
    case Tick(ns) => s.(clock := s.clock + ns)
    case StartSource(src) => s.(srcs := s.srcs[src := Source(s.step, None)])
    case ReadRepository(src) => s.(srcs := s.srcs[src := s.srcs[src].(version := Some(s.version))])
    case EvictResponse(key) => s.(cache := s.cache - {key})
    case EvictLatest => s.(latest := None)
    case EvictPending(f) => s.(pending := s.pending - {f})
  }

  function Apply(s: State, a: Action): (r: State)
    requires Enabled(s, a)
  {
    var t := match a
             case Call(p, ca) => ApplyCall(s, p, ca)
             case OfLease(l, la) => ApplyLease(s, l, la)
             case Env(ea) => ApplyEnv(s, ea);
    t.(step := s.step + 1, versions := s.versions + [s.version])
  }

  // ---------------------------------------------------------------- the invariant

  /** Each generation became "latest" at most once, in the past and after it was
      drawn; the one that is "latest" now is as new as the last invalidation. */
  ghost predicate GensOk(s: State) {
    && s.floor <= s.step
    && (forall g :: g in s.installed ==> g in s.gens && s.installed[g] < s.step)
    && (s.latest.Some? ==> s.latest.value in s.installed && s.floor <= s.installed[s.latest.value])
  }

  ghost predicate LeaseOk(s: State, l: LeaseId, lease: Lease) {
    && (lease.started.Some? ==> lease.started.value < s.step && lease.file in s.files && s.files[lease.file] == l)
    && (lease.stage.Starting? ==> lease.started.None?)
    && (lease.stage.Held? || lease.stage.Ending? || lease.stage.Wrote? ==> lease.started.Some?)
    && (lease.stage.Starting? || lease.stage.Held? || lease.stage.Ending? ==> lease.wrote.None?)
    && (lease.stage.Wrote? ==> lease.wrote.Some?)
    && (lease.stage.Ending? ==> lease.stage.gen in s.gens && s.gens[lease.stage.gen] == LeaseOwner(l)
                                && lease.stage.gen !in s.installed)
    && (lease.wrote.Some? ==> lease.wrote.value.at <= s.floor)
  }

  ghost predicate LeasesOk(s: State) {
    forall l :: l in s.leases ==> LeaseOk(s, l, s.leases[l])
  }

  /** `f` was created by a lease as its pending file. */
  predicate IsLeaseFile(s: State, f: FileId) {
    && f in s.files && s.files[f] in s.leases
    && s.leases[s.files[f]].started.Some? && s.leases[s.files[f]].file == f
  }

  /** The lease has written its new generation, or its pending file is stale. */
  predicate Settled(s: State, lease: Lease) {
    lease.wrote.Some? || s.clock >= lease.mtime + STALE_AGE
  }

  /** The files in "pending" belong to leases, and a started lease's file is gone
      only once the lease is settled. */
  ghost predicate PendingOk(s: State) {
    && (forall f :: f in s.files ==> IsLeaseFile(s, f))
    && (forall f :: f in s.pending ==> f in s.files && s.leases[s.files[f]].mtime == s.pending[f])
    && (forall l :: l in s.leases && s.leases[l].started.Some? && s.leases[l].file !in s.pending ==>
                      Settled(s, s.leases[l]))
  }

  predicate HasKey(st: Stage) {
    st.Keyed? || st.Returned? || st.Stored?
  }

  ghost predicate OpOk(s: State, p: OpId, op: Op) {
    && op.began < s.step && op.floor <= s.floor
    && (op.stage.NewGen? ==> op.stage.gen in s.gens && s.gens[op.stage.gen] == OpOwner(p)
                             && op.stage.gen !in s.installed)
    && (HasKey(op.stage) ==> op.stage.gen in s.installed && op.floor <= s.installed[op.stage.gen])
    && (op.stage.Keyed? || op.stage.Stored? ==> s.installed[op.stage.gen] <= op.stage.at < s.step)
    && (op.stage.Returned? && op.stage.response.Some? ==>
          ResponseOk(s, op.stage.gen, op.stage.response.value))
    && (op.stage.Aging? ==> IsLeaseFile(s, op.stage.file)
                            && op.stage.mtime == s.leases[s.files[op.stage.file]].mtime)
    && (op.stage.Unlink? ==> IsLeaseFile(s, op.stage.file)
                             && s.clock > s.leases[s.files[op.stage.file]].mtime + STALE_AGE)
  }

  ghost predicate OpsOk(s: State) {
    forall p :: p in s.ops ==> OpOk(s, p, s.ops[p])
  }

  /** A cached response was keyed after its generation was installed, and shows a
      version at least as new as when its production began. */
  ghost predicate ResponseOk(s: State, g: Gen, r: Response) {
    && g in s.installed
    && s.installed[g] <= r.keyed < s.step
    && r.born < |s.versions| && s.versions[r.born] <= r.version
  }

  ghost predicate CacheOk(s: State) {
    forall key :: key in s.cache ==> ResponseOk(s, key.0, s.cache[key])
  }

  ghost predicate SourcesOk(s: State) {
    && |s.versions| == s.step
    && (forall i :: 0 <= i < |s.versions| ==> s.versions[i] <= s.version)
    && forall src :: src in s.srcs ==>
                       && s.srcs[src].born < |s.versions|
                       && (s.srcs[src].version.Some? ==> s.versions[s.srcs[src].born] <= s.srcs[src].version.value)
  }

  /** The lease did not write its new generation within `STALE_AGE`. */
  predicate Overran(s: State, lease: Lease) {
    && s.clock >= lease.mtime + STALE_AGE
    && (lease.wrote.Some? ==> lease.wrote.value.clock >= lease.mtime + STALE_AGE)
  }

  ghost predicate KeyShielded(s: State, g: Gen, lease: Lease) {
    || (lease.wrote.Some? && g in s.installed && lease.wrote.value.at <= s.installed[g])
    || Overran(s, lease)
  }

  /** What a call that began after StartLease returned knows of that lease: it has
      the lease's file still to look at, or has found a valid one, or the lease is
      settled; and once it has a key, the lease wrote first or overran. */
  ghost predicate Shielded(s: State, st: Stage, lease: Lease) {
    match st
    case Scan(todo, found) => found || lease.file in todo || Settled(s, lease)
    case Aging(todo, found, f, _) => found || lease.file in todo || lease.file == f || Settled(s, lease)
    case Unlink(todo, found, f) => found || lease.file in todo || Settled(s, lease)
    case ReadLatest => Settled(s, lease)
    case NewGen(_) => Settled(s, lease)
    case Keyed(g, _) => KeyShielded(s, g, lease)
    case Returned(g, _) => KeyShielded(s, g, lease)
    case Stored(g, _) => KeyShielded(s, g, lease)
    case Failed => true
  }

  ghost predicate ShieldsOk(s: State) {
    forall p, l :: p in s.ops && l in s.leases && s.leases[l].started.Some?
                   && s.leases[l].started.value < s.ops[p].began ==>
                     Shielded(s, s.ops[p].stage, s.leases[l])
  }

  ghost predicate Inv(s: State) {
    && GensOk(s) && LeasesOk(s) && PendingOk(s)
    && OpsOk(s) && SourcesOk(s) && CacheOk(s) && ShieldsOk(s)
  }
}
