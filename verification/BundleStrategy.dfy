/**
  The occurrence strategy for bundle generation: a sliding window of request times per
  repository, and the collector that forgets windows.
 */
module BundleStrategy {
  import opened Durations

  type Key = string

  datatype Config = Config(threshold: nat, interval: int, maxBundleAge: int) {
    /** The constructor refuses thresholds below two; a maximum age of the least
        Duration is left out, since a saturated difference cannot be told from it. */
    predicate Valid() {
      threshold >= 2 && MIN_DURATION <= interval <= MAX_DURATION && MIN_DURATION < maxBundleAge <= MAX_DURATION
    }
  }

  datatype Repo = Repo(occurrences: seq<Time>, lastGenerate: Time, generating: bool)

  function NewRepo(cfg: Config): (r: Repo)
    ensures |r.occurrences| == cfg.threshold
  {
    Repo(seq(cfg.threshold, _ => 0), 0, false)
  }

  function Shifted(occurrences: seq<Time>, t: Time): seq<Time>
    requires |occurrences| >= 2
  {
    [t] + occurrences[..|occurrences| - 1]
  }

  predicate Decide(cfg: Config, repo: Repo, t: Time)
    requires |repo.occurrences| == cfg.threshold >= 2
  {
    && Sub(t, repo.occurrences[cfg.threshold - 2]) <= cfg.interval
    && repo.lastGenerate + cfg.maxBundleAge <= t
    && !repo.generating
  }

  function AfterEvaluate(cfg: Config, repo: Repo, t: Time): Repo
    requires |repo.occurrences| == cfg.threshold >= 2
  {
    Repo(Shifted(repo.occurrences, t), repo.lastGenerate, repo.generating || Decide(cfg, repo, t))
  }

  function AfterDone(repo: Repo, success: bool, at: Time): Repo {
    Repo(repo.occurrences, if success then at else repo.lastGenerate, false)
  }

  predicate Collectable(cfg: Config, repo: Repo, now: Time)
    requires |repo.occurrences| >= 2
  {
    && Sub(now, repo.lastGenerate) >= cfg.maxBundleAge
    && Sub(now, repo.occurrences[0]) >= cfg.interval
    && !repo.generating
  }

  // ---------------------------------------------------------------- the strategy

  predicate Sized(cfg: Config, m: map<Key, Repo>) {
    forall k :: k in m ==> |m[k].occurrences| == cfg.threshold
  }

  function Load(cfg: Config, m: map<Key, Repo>, key: Key): (r: Repo)
    requires Sized(cfg, m)
    ensures |r.occurrences| == cfg.threshold
  {
    if key in m then m[key] else NewRepo(cfg)
  }

  /** One critical section: an evaluation, the reset when the queue is full, the end of
      a generation, and the collector's visit to one repository. */
  datatype Event =
    | Evaluate(key: Key, time: Time)
    | Abort(key: Key)
    | Done(key: Key, success: bool, at: Time)
    | Collect(key: Key, now: Time)

  function Step(cfg: Config, m: map<Key, Repo>, e: Event): (m': map<Key, Repo>)
    requires cfg.threshold >= 2 && Sized(cfg, m)
    ensures Sized(cfg, m')
  {
    match e
    case Evaluate(k, t) => m[k := AfterEvaluate(cfg, Load(cfg, m, k), t)]
    case Abort(k) => m[k := AfterDone(Load(cfg, m, k), false, 0)]
    case Done(k, success, at) => m[k := AfterDone(Load(cfg, m, k), success, at)]
    case Collect(k, now) => if k in m && Collectable(cfg, m[k], now) then m - {k} else m
  }

  ghost function Exec(cfg: Config, log: seq<Event>): (m: map<Key, Repo>)
    requires cfg.threshold >= 2
    ensures Sized(cfg, m)
  {
    if log == [] then map[] else Step(cfg, Exec(cfg, log[..|log| - 1]), log[|log| - 1])
  }

  /** Whether each evaluation of the log, in order, asks for a bundle. */
  ghost function Decisions(cfg: Config, log: seq<Event>): seq<bool>
    requires cfg.threshold >= 2
  {
    if log == [] then [] else
    var before, e := log[..|log| - 1], log[|log| - 1];
    Decisions(cfg, before)
    + if e.Evaluate? then [Decide(cfg, Load(cfg, Exec(cfg, before), e.key), e.time)] else []
  }

  ghost function Uncollected(log: seq<Event>): seq<Event> {
    if log == [] then [] else
    Uncollected(log[..|log| - 1]) + if log[|log| - 1].Collect? then [] else [log[|log| - 1]]
  }

  /** A collection that has yet to visit `todo`; the clock is read anew at each visit. */
  function Swept(cfg: Config, m: map<Key, Repo>, clock: Key -> Time, todo: set<Key>): (r: map<Key, Repo>)
    requires cfg.threshold >= 2 && Sized(cfg, m)
    ensures Sized(cfg, r)
  {
    map k | k in m && (k in todo || !Collectable(cfg, m[k], clock(k))) :: m[k]
  }

  lemma SweepVisits(cfg: Config, m: map<Key, Repo>, clock: Key -> Time, todo: set<Key>, k: Key)
    requires cfg.threshold >= 2 && Sized(cfg, m) && k in todo && todo <= m.Keys
    ensures Step(cfg, Swept(cfg, m, clock, todo), Collect(k, clock(k))) == Swept(cfg, m, clock, todo - {k})
    ensures todo <= Swept(cfg, m, clock, todo).Keys
  {
  }

  // ------------------------------------------------------------------ in place

  /** What the strategy keeps for one repository; the window is shifted in place. */
  class RepositoryState {
    const occurrences: array<Time>
    var lastGenerate: Time
    var generating: bool

    ghost function Value(): Repo
      reads this, occurrences
    {
      Repo(occurrences[..], lastGenerate, generating)
    }

    constructor (cfg: Config)
      ensures Value() == NewRepo(cfg) && fresh(occurrences)
    {
      occurrences := new Time[cfg.threshold](_ => 0);
      lastGenerate := 0;
      generating := false;
    }

    method Shift(t: Time)
      requires occurrences.Length >= 2
      modifies occurrences
      ensures occurrences[..] == Shifted(old(occurrences[..]), t)
    {
      var i := occurrences.Length - 1;
      while i > 0
        invariant 0 <= i < occurrences.Length
        invariant forall j :: 0 <= j <= i ==> occurrences[j] == old(occurrences[j])
        invariant forall j :: i < j < occurrences.Length ==> occurrences[j] == old(occurrences[j - 1])
      {
        occurrences[i] := occurrences[i - 1];
        i := i - 1;
      }
      occurrences[0] := t;
    }

    method Evaluate(cfg: Config, t: Time) returns (generate: bool)
      requires occurrences.Length == cfg.threshold >= 2
      modifies this, occurrences
      ensures Value() == AfterEvaluate(cfg, old(Value()), t)
      ensures generate <==> Decide(cfg, old(Value()), t)
    {
      Shift(t);
      var oldest, newest := occurrences[occurrences.Length - 1], occurrences[0];
      assert oldest == old(occurrences[..])[cfg.threshold - 2];
      if Sub(newest, oldest) > cfg.interval {
        return false;
      }
      if lastGenerate + cfg.maxBundleAge > t {
        return false;
      }
      if !generating {
        generating := true;
        return true;
      }
      return false;
    }
  }

  lemma Overwritten<K, V>(m: map<K, V>, k: K, v: V, w: V)
    ensures m[k := v][k := w] == m[k := w]
  {
  }

  class OccurrenceStrategy {
    const cfg: Config
    var state: map<Key, RepositoryState>

    ghost var Repr: set<object>

    ghost predicate Valid()
      reads this, Repr
    {
      && cfg.Valid()
      && (forall k :: k in state ==>
            state[k] in Repr && state[k].occurrences in Repr && state[k].occurrences.Length == cfg.threshold)
      && (forall k, l :: k in state && l in state && state[k].occurrences == state[l].occurrences ==> k == l)
    }

    ghost function View(): (m: map<Key, Repo>)
      requires Valid()
      reads this, Repr
      ensures Sized(cfg, m)
    {
      map k | k in state :: state[k].Value()
    }

    constructor (cfg: Config)
      requires cfg.Valid()
      ensures Valid() && View() == map[] && this.cfg == cfg && fresh(Repr)
    {
      this.cfg := cfg;
      state, Repr := map[], {};
    }

    method LoadState(key: Key) returns (rs: RepositoryState)
      requires Valid()
      modifies this
      ensures Valid() && key in state && rs == state[key]
      ensures View() == old(View())[key := Load(cfg, old(View()), key)]
      ensures fresh(Repr - old(Repr))
    {
      if key in state {
        rs := state[key];
      } else {
        rs := new RepositoryState(cfg);
        state, Repr := state[key := rs], Repr + {rs, rs.occurrences};
      }
    }

    method EvaluateLoaded(key: Key, t: Time) returns (generate: bool)
      requires Valid() && key in state
      modifies state[key], state[key].occurrences
      ensures Valid() && View() == old(View())[key := AfterEvaluate(cfg, old(View())[key], t)]
      ensures generate <==> Decide(cfg, old(View())[key], t)
    {
      generate := state[key].Evaluate(cfg, t);
      assert forall k :: k in state && k != key ==> state[k].Value() == old(state[k].Value());
    }

    method DoneLoaded(key: Key, success: bool, at: Time)
      requires Valid() && key in state
      modifies state[key]
      ensures Valid() && View() == old(View())[key := AfterDone(old(View())[key], success, at)]
    {
      state[key].generating := false;
      if success {
        state[key].lastGenerate := at;
      }
      assert forall k :: k in state && k != key ==> state[k].Value() == old(state[k].Value());
    }

    method EvaluateRequest(key: Key, t: Time) returns (generate: bool)
      requires Valid()
      modifies this, Repr
      ensures Valid() && View() == Step(cfg, old(View()), Evaluate(key, t))
      ensures generate <==> Decide(cfg, Load(cfg, old(View()), key), t)
      ensures fresh(Repr - old(Repr))
    {
      ghost var m := View();
      var rs := LoadState(key);
      ghost var repo := Load(cfg, m, key);
      assert View() == m[key := repo];
      generate := EvaluateLoaded(key, t);
      Overwritten(m, key, repo, AfterEvaluate(cfg, repo, t));
    }

    method DoneGenerating(key: Key, success: bool, at: Time)
      requires Valid()
      modifies this, Repr
      ensures Valid() && View() == Step(cfg, old(View()), Done(key, success, at))
      ensures fresh(Repr - old(Repr))
    {
      ghost var m := View();
      var rs := LoadState(key);
      ghost var repo := Load(cfg, m, key);
      assert View() == m[key := repo];
      DoneLoaded(key, success, at);
      Overwritten(m, key, repo, AfterDone(repo, success, at));
    }

    /** Answers whether the request was handed to a generation worker. */
    method Process(key: Key, t: Time, queueFull: bool) returns (queued: bool)
      requires Valid()
      modifies this, Repr
      ensures queued <==> Decide(cfg, Load(cfg, old(View()), key), t) && !queueFull
      ensures Valid() && fresh(Repr - old(Repr))
      ensures View() ==
        if queueFull && Decide(cfg, Load(cfg, old(View()), key), t)
        then Step(cfg, Step(cfg, old(View()), Evaluate(key, t)), Abort(key))
        else Step(cfg, old(View()), Evaluate(key, t))
    {
      queued := EvaluateRequest(key, t);
      if queued && queueFull {
        queued := false;
        DoneGenerating(key, false, 0);
      }
    }

    method CollectOne(key: Key, now: Time)
      requires Valid() && key in state
      modifies this`state
      ensures Valid() && View() == Step(cfg, old(View()), Collect(key, now))
    {
      var rs := state[key];
      assert View()[key] == rs.Value();
      if Sub(now, rs.lastGenerate) < cfg.maxBundleAge {
        return;
      }
      if Sub(now, rs.occurrences[0]) < cfg.interval {
        return;
      }
      if rs.generating {
        return;
      }
      state := state - {key};
    }

    method CollectGarbage(clock: Key -> Time)
      requires Valid()
      modifies this`state
      ensures Valid() && View() == Swept(cfg, old(View()), clock, {})
    {
      var todo := state.Keys;
      ghost var m := View();
      assert m == Swept(cfg, m, clock, todo);
      while todo != {}
        invariant Valid() && todo <= m.Keys
        invariant View() == Swept(cfg, m, clock, todo)
        decreases |todo|
      {
        var k :| k in todo;
        SweepVisits(cfg, m, clock, todo, k);
        assert k in View();
        todo := todo - {k};
        CollectOne(k, clock(k));
      }
    }
  }
}
