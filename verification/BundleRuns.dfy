/** Forgetting is invisible: the strategy with the collector and the one without. */
module BundleRuns {
  import opened Durations
  import opened BundleStrategy

  /** The last time a request for `key` was stamped with, zero if there was none. */
  ghost function LastRequest(log: seq<Event>, key: Key): Time {
    if log == [] then 0 else
    var e := log[|log| - 1];
    if e.Evaluate? && e.key == key then e.time else LastRequest(log[..|log| - 1], key)
  }

  /** The latest clock reading of a collector's visit to `key`, -1 if there was none. */
  ghost function LastVisit(log: seq<Event>, key: Key): int {
    if log == [] then -1 else
    var e, before := log[|log| - 1], LastVisit(log[..|log| - 1], key);
    if e.Collect? && e.key == key && e.now > before then e.now else before
  }

  /** Per repository, request times never go back, and a request evaluated after a
      visit of the collector carries a later time than that visit's clock reading. */
  ghost predicate Timely(log: seq<Event>) {
    log == []
    || (&& Timely(log[..|log| - 1])
        && var e, before := log[|log| - 1], log[..|log| - 1];
           e.Evaluate? ==> LastRequest(before, e.key) <= e.time && LastVisit(before, e.key) < e.time)
  }

  // -------------------------------------------------------- the simulation

  /** No request later than `visit` can count `x` in its window. */
  predicate Spent(cfg: Config, x: Time, visit: int) {
    cfg.interval < 0 || x + cfg.interval <= visit
  }

  predicate SameSlot(cfg: Config, x: Time, y: Time, visit: int) {
    x == y || (Spent(cfg, x, visit) && Spent(cfg, y, visit))
  }

  predicate SameAge(cfg: Config, x: Time, y: Time, visit: int) {
    x == y || (x + cfg.maxBundleAge <= visit && y + cfg.maxBundleAge <= visit)
  }

  /** Newest first, none after the last request. */
  ghost predicate Window(cfg: Config, r: Repo, last: Time) {
    && |r.occurrences| == cfg.threshold
    && (forall i :: 0 <= i < |r.occurrences| ==> r.occurrences[i] <= last)
    && (forall i, j :: 0 <= i < j < |r.occurrences| ==> r.occurrences[j] <= r.occurrences[i])
  }

  /** `a` may have been collected, `b` never was. */
  ghost predicate Alike(cfg: Config, a: Repo, b: Repo, last: Time, visit: int) {
    && cfg.Valid() && Window(cfg, a, last) && Window(cfg, b, last)
    && a.generating == b.generating && SameAge(cfg, a.lastGenerate, b.lastGenerate, visit)
    && (forall i :: 0 <= i < cfg.threshold ==> SameSlot(cfg, a.occurrences[i], b.occurrences[i], visit))
  }

  lemma SpentIsLate(cfg: Config, x: Time, visit: int, t: Time)
    requires cfg.Valid() && Spent(cfg, x, visit) && visit < t && x <= t
    ensures Sub(t, x) > cfg.interval <==> cfg.interval < MAX_DURATION
  {
  }

  lemma SameDecision(cfg: Config, a: Repo, b: Repo, last: Time, visit: int, t: Time)
    requires Alike(cfg, a, b, last, visit) && last <= t && visit < t
    ensures Decide(cfg, a, t) == Decide(cfg, b, t)
  {
    var x, y := a.occurrences[cfg.threshold - 2], b.occurrences[cfg.threshold - 2];
    assert SameSlot(cfg, x, y, visit);
    if x != y {
      SpentIsLate(cfg, x, visit, t);
      SpentIsLate(cfg, y, visit, t);
    }
  }

  lemma ShiftedWindow(cfg: Config, a: Repo, last: Time, t: Time)
    requires cfg.Valid() && Window(cfg, a, last) && last <= t
    ensures Window(cfg, AfterEvaluate(cfg, a, t), t)
  {
  }

  lemma EvaluateAlike(cfg: Config, a: Repo, b: Repo, last: Time, visit: int, t: Time)
    requires Alike(cfg, a, b, last, visit) && last <= t && visit < t
    ensures Alike(cfg, AfterEvaluate(cfg, a, t), AfterEvaluate(cfg, b, t), t, visit)
  {
    SameDecision(cfg, a, b, last, visit, t);
    ShiftedWindow(cfg, a, last, t);
    ShiftedWindow(cfg, b, last, t);
  }

  lemma CollectAlike(cfg: Config, a: Repo, b: Repo, last: Time, visit: int, now: Time)
    requires Alike(cfg, a, b, last, visit)
    ensures Alike(cfg, if Collectable(cfg, a, now) then NewRepo(cfg) else a, b, last,
                  if now > visit then now else visit)
  {
    var later := if now > visit then now else visit;
    if Collectable(cfg, a, now) {
      forall i | 0 <= i < cfg.threshold ensures SameSlot(cfg, 0, b.occurrences[i], later) {
        assert SameSlot(cfg, a.occurrences[i], b.occurrences[i], visit);
        assert a.occurrences[i] <= a.occurrences[0];
      }
    }
  }

  lemma UncollectedStep(cfg: Config, log: seq<Event>)
    requires cfg.threshold >= 2 && log != []
    ensures var before, e := Uncollected(log[..|log| - 1]), log[|log| - 1];
            if e.Collect? then Uncollected(log) == before
            else
              && Uncollected(log) == before + [e]
              && Exec(cfg, Uncollected(log)) == Step(cfg, Exec(cfg, before), e)
              && Decisions(cfg, Uncollected(log)) == Decisions(cfg, before)
                 + if e.Evaluate? then [Decide(cfg, Load(cfg, Exec(cfg, before), e.key), e.time)] else []
  {
    if !log[|log| - 1].Collect? {
      assert Uncollected(log)[..|Uncollected(log)| - 1] == Uncollected(log[..|log| - 1]);
    }
  }

  lemma StepAlike(cfg: Config, m: map<Key, Repo>, n: map<Key, Repo>, e: Event, last: Time, visit: int)
    requires cfg.Valid() && Sized(cfg, m) && Sized(cfg, n)
    requires Alike(cfg, Load(cfg, m, e.key), Load(cfg, n, e.key), last, visit)
    requires e.Evaluate? ==> last <= e.time && visit < e.time
    ensures Alike(cfg, Load(cfg, Step(cfg, m, e), e.key), Load(cfg, if e.Collect? then n else Step(cfg, n, e), e.key),
                  if e.Evaluate? then e.time else last, if e.Collect? && e.now > visit then e.now else visit)
  {
    var a, b := Load(cfg, m, e.key), Load(cfg, n, e.key);
    match e
    case Evaluate(_, t) => EvaluateAlike(cfg, a, b, last, visit, t);
    case Collect(_, now) => CollectAlike(cfg, a, b, last, visit, now);
    case _ =>
  }

  lemma StepElsewhere(cfg: Config, m: map<Key, Repo>, e: Event, key: Key)
    requires cfg.threshold >= 2 && Sized(cfg, m) && e.key != key
    ensures Load(cfg, Step(cfg, m, e), key) == Load(cfg, m, key)
  {
  }

  lemma {:induction false} RunAlike(cfg: Config, log: seq<Event>, key: Key)
    requires cfg.Valid() && Timely(log)
    ensures Alike(cfg, Load(cfg, Exec(cfg, log), key), Load(cfg, Exec(cfg, Uncollected(log)), key),
                  LastRequest(log, key), LastVisit(log, key))
  {
    if log != [] {
      var before, e := log[..|log| - 1], log[|log| - 1];
      RunAlike(cfg, before, key);
      UncollectedStep(cfg, log);
      if e.key == key {
        StepAlike(cfg, Exec(cfg, before), Exec(cfg, Uncollected(before)), e,
                  LastRequest(before, key), LastVisit(before, key));
      } else {
        StepElsewhere(cfg, Exec(cfg, before), e, key);
        StepElsewhere(cfg, Exec(cfg, Uncollected(before)), e, key);
      }
    }
  }

  /** On every timely log, collecting or never collecting gives the same decisions. */
  lemma {:induction false} CollectionIsInvisible(cfg: Config, log: seq<Event>)
    requires cfg.Valid() && Timely(log)
    ensures Decisions(cfg, log) == Decisions(cfg, Uncollected(log))
  {
    if log != [] {
      var before, e := log[..|log| - 1], log[|log| - 1];
      CollectionIsInvisible(cfg, before);
      UncollectedStep(cfg, log);
      if e.Evaluate? {
        RunAlike(cfg, before, e.key);
        SameDecision(cfg, Load(cfg, Exec(cfg, before), e.key), Load(cfg, Exec(cfg, Uncollected(before)), e.key),
                     LastRequest(before, e.key), LastVisit(before, e.key), e.time);
      }
    }
  }

  /** The bound on request times is tight: forgetting at `now` changes the decision of a
      request stamped `now` exactly when, with it, the window spans the interval to the
      nanosecond, which the collector takes for too long and the evaluation does not. */
  lemma SameInstantIsVisible(cfg: Config, r: Repo, last: Time, now: Time)
    requires cfg.Valid() && Window(cfg, r, last) && last <= now && Collectable(cfg, r, now)
    ensures Decide(cfg, r, now) != Decide(cfg, NewRepo(cfg), now)
            <==> Sub(now, r.occurrences[cfg.threshold - 2]) == cfg.interval < Sub(now, 0)
  {
    assert r.occurrences[cfg.threshold - 2] <= r.occurrences[0];
  }

  // ------------------------------------------------- decisions by the whole log

  /** The times of all requests for `key`, newest first. */
  ghost function Requests(log: seq<Event>, key: Key): seq<Time> {
    if log == [] then [] else
    var e, before := log[|log| - 1], Requests(log[..|log| - 1], key);
    if e.Evaluate? && e.key == key then [e.time] + before else before
  }

  /** When the last bundle was generated, the zero time if none was. */
  ghost function LastBundle(log: seq<Event>, key: Key): Time {
    if log == [] then 0 else
    var e := log[|log| - 1];
    if e.Done? && e.key == key && e.success then e.at else LastBundle(log[..|log| - 1], key)
  }

  /** Whether a bundle was asked for and its generation has neither ended nor been dropped. */
  ghost predicate Busy(cfg: Config, log: seq<Event>, key: Key)
    requires cfg.threshold >= 2
    decreases |log|, 0
  {
    log != []
    && var e, before := log[|log| - 1], log[..|log| - 1];
       if e.Collect? || e.key != key then Busy(cfg, before, key)
       else e.Evaluate? && (Busy(cfg, before, key) || Wanted(cfg, before, key, e.time))
  }

  /** With a request at `t` this is the oldest one in the window, the zero time if there
      were too few. */
  ghost function OldestBefore(cfg: Config, log: seq<Event>, key: Key): Time
    requires cfg.threshold >= 2
  {
    if |Requests(log, key)| >= cfg.threshold - 1 then Requests(log, key)[cfg.threshold - 2] else 0
  }

  /** What the documentation promises of a request at `t`: with it, `threshold` requests
      fall into one interval, the last bundle is old enough, and none is under way. */
  ghost predicate Wanted(cfg: Config, log: seq<Event>, key: Key, t: Time)
    requires cfg.threshold >= 2
    decreases |log|, 1
  {
    && Sub(t, OldestBefore(cfg, log, key)) <= cfg.interval
    && LastBundle(log, key) + cfg.maxBundleAge <= t
    && !Busy(cfg, log, key)
  }

  /** `r` is what the log says, with zero times where there were too few requests. */
  ghost predicate Remembers(cfg: Config, r: Repo, log: seq<Event>, key: Key)
    requires cfg.threshold >= 2
  {
    && |r.occurrences| == cfg.threshold
    && (forall i :: 0 <= i < cfg.threshold ==>
          r.occurrences[i] == if i < |Requests(log, key)| then Requests(log, key)[i] else 0)
    && r.lastGenerate == LastBundle(log, key) && r.generating == Busy(cfg, log, key)
  }

  lemma EvaluateRemembers(cfg: Config, r: Repo, log: seq<Event>, key: Key, t: Time)
    requires cfg.threshold >= 2 && log != [] && log[|log| - 1] == Evaluate(key, t)
    requires Remembers(cfg, r, log[..|log| - 1], key)
    ensures Remembers(cfg, AfterEvaluate(cfg, r, t), log, key)
  {
  }

  lemma DoneRemembers(cfg: Config, r: Repo, log: seq<Event>, key: Key, success: bool, at: Time)
    requires cfg.threshold >= 2 && log != [] && Remembers(cfg, r, log[..|log| - 1], key)
    requires log[|log| - 1] == Done(key, success, at) || (log[|log| - 1] == Abort(key) && !success)
    ensures Remembers(cfg, AfterDone(r, success, at), log, key)
  {
  }

  /** Collections, and what happens to other repositories, are not remembered. */
  lemma OtherRemembers(cfg: Config, r: Repo, log: seq<Event>, key: Key)
    requires cfg.threshold >= 2 && log != [] && Remembers(cfg, r, log[..|log| - 1], key)
    requires log[|log| - 1].Collect? || log[|log| - 1].key != key
    ensures Remembers(cfg, r, log, key)
  {
  }

  lemma {:induction false} UncollectedRemembers(cfg: Config, log: seq<Event>, key: Key)
    requires cfg.threshold >= 2
    ensures Remembers(cfg, Load(cfg, Exec(cfg, Uncollected(log)), key), log, key)
  {
    if log != [] {
      var e, r := log[|log| - 1], Load(cfg, Exec(cfg, Uncollected(log[..|log| - 1])), key);
      UncollectedRemembers(cfg, log[..|log| - 1], key);
      UncollectedStep(cfg, log);
      if e.Collect? || e.key != key {
        OtherRemembers(cfg, r, log, key);
      } else {
        match e
        case Evaluate(_, t) => EvaluateRemembers(cfg, r, log, key, t);
        case Done(_, success, at) => DoneRemembers(cfg, r, log, key, success, at);
        case Abort(_) => DoneRemembers(cfg, r, log, key, false, 0);
      }
    }
  }

  /** On every timely log the strategy, bounded windows and collector included, asks for
      a bundle exactly when the whole history of the repository wants one. */
  lemma DecidesByHistory(cfg: Config, log: seq<Event>, key: Key, t: Time)
    requires cfg.Valid() && Timely(log) && LastRequest(log, key) <= t && LastVisit(log, key) < t
    ensures Decide(cfg, Load(cfg, Exec(cfg, log), key), t) <==> Wanted(cfg, log, key, t)
  {
    RunAlike(cfg, log, key);
    UncollectedRemembers(cfg, log, key);
    SameDecision(cfg, Load(cfg, Exec(cfg, log), key), Load(cfg, Exec(cfg, Uncollected(log)), key),
                 LastRequest(log, key), LastVisit(log, key), t);
  }

  // ------------------------------------------------- a visible collection

  /** Some decision of the log depends on its collections. */
  ghost predicate Visible(cfg: Config, log: seq<Event>)
    requires cfg.threshold >= 2
  {
    Decisions(cfg, log) != Decisions(cfg, Uncollected(log))
  }

  lemma LogStep(cfg: Config, log: seq<Event>, e: Event)
    requires cfg.threshold >= 2
    ensures Exec(cfg, log + [e]) == Step(cfg, Exec(cfg, log), e)
    ensures Uncollected(log + [e]) == Uncollected(log) + if e.Collect? then [] else [e]
    ensures Decisions(cfg, log + [e]) == Decisions(cfg, log)
              + if e.Evaluate? then [Decide(cfg, Load(cfg, Exec(cfg, log), e.key), e.time)] else []
  {
    assert (log + [e])[..|log|] == log;
  }

  /** What a request at `t` finds different when the window, whose oldest time is `oldest`,
      and the last bundle are forgotten: it misses a bundle that is due, or asks for one
      that is not. */
  predicate Matters(cfg: Config, oldest: Time, lastGenerate: Time, t: Time) {
    || (Sub(t, oldest) <= cfg.interval < Sub(t, 0) && lastGenerate + cfg.maxBundleAge <= t)
    || (Sub(t, 0) <= cfg.interval && cfg.maxBundleAge <= t < lastGenerate + cfg.maxBundleAge)
  }

  lemma ForgottenDecision(cfg: Config, r: Repo, t: Time)
    requires cfg.Valid() && |r.occurrences| == cfg.threshold && !r.generating
    ensures Decide(cfg, r, t) != Decide(cfg, NewRepo(cfg), t)
            <==> Matters(cfg, r.occurrences[cfg.threshold - 2], r.lastGenerate, t)
  {
  }

  lemma LastDiffers<T>(a: seq<T>, x: T, y: T)
    ensures a + [x] == a + [y] <==> x == y
  {
    assert (a + [x])[|a|] == x && (a + [y])[|a|] == y;
  }

  /** A collection that has not shown yet, and has forgotten a repository for which no
      bundle is under way, shows in the decision of a request exactly when forgetting
      matters to it, whatever time the request is stamped with. */
  lemma {:induction false} VisibleExactly(cfg: Config, log: seq<Event>, key: Key, t: Time)
    requires cfg.Valid() && !Visible(cfg, log) && key !in Exec(cfg, log) && !Busy(cfg, log, key)
    ensures Visible(cfg, log + [Evaluate(key, t)])
            <==> Matters(cfg, OldestBefore(cfg, log, key), LastBundle(log, key), t)
  {
    var kept := Uncollected(log);
    var r := Load(cfg, Exec(cfg, kept), key);
    LogStep(cfg, log, Evaluate(key, t));
    LogStep(cfg, kept, Evaluate(key, t));
    UncollectedIsStable(log);
    UncollectedRemembers(cfg, log, key);
    ForgottenDecision(cfg, r, t);
    LastDiffers(Decisions(cfg, log), Decide(cfg, r, t), Decide(cfg, NewRepo(cfg), t));
  }

  lemma {:induction false} UncollectedIsStable(log: seq<Event>)
    ensures Uncollected(Uncollected(log)) == Uncollected(log)
  {
    if log != [] {
      UncollectedIsStable(log[..|log| - 1]);
      var before, e := Uncollected(log[..|log| - 1]), log[|log| - 1];
      if e.Collect? {
        assert Uncollected(log) == before;
      } else {
        assert Uncollected(log) == before + [e] && (before + [e])[..|before|] == before;
      }
    }
  }

  /** So after every timely log, the next request for a forgotten repository shows that it
      was forgotten exactly when that matters; `CollectionIsInvisible` says that it does
      not if the request keeps the log timely. */
  lemma {:induction false} RaceIsVisibleExactly(cfg: Config, log: seq<Event>, key: Key, t: Time)
    requires cfg.Valid() && Timely(log) && key !in Exec(cfg, log)
    ensures Visible(cfg, log + [Evaluate(key, t)])
            <==> Matters(cfg, OldestBefore(cfg, log, key), LastBundle(log, key), t)
  {
    CollectionIsInvisible(cfg, log);
    RunAlike(cfg, log, key);
    UncollectedRemembers(cfg, log, key);
    VisibleExactly(cfg, log, key, t);
  }

  /** A visit of the collector at `now`, and a request stamped `t` evaluated after it. */
  function Race(log: seq<Event>, key: Key, now: Time, t: Time): seq<Event> {
    log + [Collect(key, now)] + [Evaluate(key, t)]
  }

  lemma VisitStep(cfg: Config, log: seq<Event>, key: Key, now: Time)
    requires cfg.threshold >= 2
    ensures var visited := log + [Collect(key, now)];
            && Requests(visited, key) == Requests(log, key) && LastBundle(visited, key) == LastBundle(log, key)
            && Busy(cfg, visited, key) == Busy(cfg, log, key)
  {
    assert (log + [Collect(key, now)])[..|log|] == log;
  }

  /** After any log without collections, a visit that forgets the repository shows in the
      next request for it exactly when that matters. */
  lemma {:induction false} VisitIsVisibleExactly(cfg: Config, log: seq<Event>, key: Key, now: Time, t: Time)
    requires cfg.Valid() && Uncollected(log) == log
    requires key in Exec(cfg, log) && Collectable(cfg, Exec(cfg, log)[key], now)
    ensures Visible(cfg, Race(log, key, now, t))
            <==> Matters(cfg, OldestBefore(cfg, log, key), LastBundle(log, key), t)
  {
    LogStep(cfg, log, Collect(key, now));
    assert log + [] == log && Decisions(cfg, log) + [] == Decisions(cfg, log);
    VisitStep(cfg, log, key, now);
    UncollectedRemembers(cfg, log, key);
    VisibleExactly(cfg, log + [Collect(key, now)], key, t);
  }

  ghost function Evaluations(key: Key, t: Time, n: nat): seq<Event> {
    if n == 0 then [] else Evaluations(key, t, n - 1) + [Evaluate(key, t)]
  }

  /** `n` requests at `t`, none of which asked for a bundle. */
  ghost predicate Quiet(cfg: Config, log: seq<Event>, key: Key, t: Time, n: nat)
    requires cfg.threshold >= 2
  {
    && Uncollected(log) == log && !Busy(cfg, log, key) && LastBundle(log, key) == 0
    && |Requests(log, key)| == n && (forall i :: 0 <= i < n ==> Requests(log, key)[i] == t)
  }

  lemma RequestStep(cfg: Config, log: seq<Event>, key: Key, t: Time)
    requires cfg.threshold >= 2
    ensures var after := log + [Evaluate(key, t)];
            && Requests(after, key) == [t] + Requests(log, key) && LastBundle(after, key) == LastBundle(log, key)
            && (Busy(cfg, after, key) <==> Busy(cfg, log, key) || Wanted(cfg, log, key, t))
            && Uncollected(after) == Uncollected(log) + [Evaluate(key, t)]
  {
    assert (log + [Evaluate(key, t)])[..|log|] == log;
  }

  lemma QuietStep(cfg: Config, log: seq<Event>, key: Key, t: Time, n: nat)
    requires cfg.Valid() && n + 1 < cfg.threshold && Sub(t, 0) > cfg.interval && Quiet(cfg, log, key, t, n)
    ensures Quiet(cfg, log + [Evaluate(key, t)], key, t, n + 1)
  {
    RequestStep(cfg, log, key, t);
  }

  lemma {:induction false} FirstEvaluations(cfg: Config, key: Key, t: Time, n: nat)
    requires cfg.Valid() && n < cfg.threshold && Sub(t, 0) > cfg.interval
    ensures Quiet(cfg, Evaluations(key, t, n), key, t, n)
    ensures n > 0 ==> key in Exec(cfg, Evaluations(key, t, n))
  {
    if n > 0 {
      FirstEvaluations(cfg, key, t, n - 1);
      QuietStep(cfg, Evaluations(key, t, n - 1), key, t, n - 1);
      LogStep(cfg, Evaluations(key, t, n - 1), Evaluate(key, t));
    }
  }

  lemma QuietIsForgotten(cfg: Config, log: seq<Event>, key: Key, t: Time, now: Time, u: Time)
    requires cfg.Valid() && Quiet(cfg, log, key, t, cfg.threshold - 1) && key in Exec(cfg, log)
    requires Sub(now, t) >= cfg.interval && Sub(now, 0) >= cfg.maxBundleAge
    requires t <= u && Sub(u, t) <= cfg.interval < Sub(t, 0) && cfg.maxBundleAge <= u
    ensures Visible(cfg, Race(log, key, now, u))
  {
    UncollectedRemembers(cfg, log, key);
    assert Exec(cfg, log)[key].occurrences[0] == t;
    VisitIsVisibleExactly(cfg, log, key, now, u);
  }

  /** Such races exist for every setting: after `threshold - 1` requests at `t`, a visit an
      interval later or more, and then the evaluation of a request that was stamped within
      the interval, as one can be that waited in the queue. */
  lemma CollectionCanBeVisible(cfg: Config, key: Key, t: Time, now: Time, u: Time)
    requires cfg.Valid() && Sub(now, t) >= cfg.interval && Sub(now, 0) >= cfg.maxBundleAge
    requires t <= u && Sub(u, t) <= cfg.interval < Sub(t, 0) && cfg.maxBundleAge <= u
    ensures Visible(cfg, Race(Evaluations(key, t, cfg.threshold - 1), key, now, u))
  {
    FirstEvaluations(cfg, key, t, cfg.threshold - 1);
    QuietIsForgotten(cfg, Evaluations(key, t, cfg.threshold - 1), key, t, now, u);
  }
}
