/** Active invalidation (invalidateCacheByPrefix, invalidatePropertyCache): after it, what
    is served was read upstream after it, unless a read-and-fetch overlapped it. */
module CacheInvalidation {
  import opened Wrappers
  import opened CacheKeys
  import opened Cache

  predicate Underway(ph: Phase) {
    ph.Got? || ph.Fetching? || ph.Fetched? || ph.Stamped?
  }

  /** No read-and-fetch of a matching key is under way. */
  ghost predicate Still(prefix: string, s: State) {
    forall t :: t in s.tasks && Matching(prefix, KeyOf(s.tasks[t].args)) ==> !Underway(s.tasks[t].phase)
  }

  // ------------------------------------------------------------ during the sweep

  /** Sweep i has found only matching keys, and every matching key still stored is owed. */
  ghost predicate Sweeping(i: nat, prefix: string, s: State) {
    && i in s.sweeps && s.sweeps[i].prefix == prefix && !s.sweeps[i].done
    && (forall k :: k in s.sweeps[i].found ==> Matching(prefix, k))
    && (forall k :: k in s.store && Matching(prefix, k) ==> k in s.sweeps[i].owed)
  }

  lemma SweepingStep(p: Params, up: Upstream, i: nat, prefix: string, s: State, a: Action)
    requires Sweeping(i, prefix, s) && Still(prefix, s) && Enabled(s, a) && a != SweepDelete(i) && a != SweepError(i)
    ensures Sweeping(i, prefix, Next(p, up, s, a))
  {
    hide KeyOf, Matching;
  }

  lemma {:induction false} RunSweeping(p: Params, up: Upstream, i: nat, prefix: string,
                                       tr: seq<State>, acts: seq<Action>, n: nat)
    requires Run(p, up, tr, acts) && 0 < n < |tr| && acts[0] == SweepStart(i, prefix)
    requires forall j :: 0 <= j < n ==> Still(prefix, tr[j])
    requires forall j :: 0 < j < n ==> acts[j] != SweepDelete(i) && acts[j] != SweepError(i)
    ensures Sweeping(i, prefix, tr[n])
  {
    if n == 1 {
      hide KeyOf, Matching;
    } else {
      hide Sweeping, Next, Enabled, Still;
      RunSweeping(p, up, i, prefix, tr, acts, n - 1);
      SweepingStep(p, up, i, prefix, tr[n - 1], acts[n - 1]);
    }
  }

  // ------------------------------------------------------------- after the sweep

  /** Read upstream at t0 or later, or never again young enough to be served. */
  predicate Harmless(p: Params, t0: nat, now: nat, e: Envelope) {
    e.readAt >= t0 || now >= e.cachedAt + p.ttl + p.stale
  }

  ghost predicate FreshTask(p: Params, t0: nat, now: nat, t: Task) {
    match t.phase
    case Got(raw) => raw.Some? ==> Harmless(p, t0, now, raw.value)
    case Fetched(_, readAt) => readAt >= t0
    case Stamped(e) => e.readAt >= t0 || (t.background && Harmless(p, t0, now, e))
    case Served(_, readAt, _, _) => readAt >= t0
    case _ => true
  }

  /** Nothing that matching keys hold, or that matching tasks outside `past` work on, can
      bring back what the upstream said before t0. */
  ghost predicate FreshSince(p: Params, prefix: string, t0: nat, past: set<nat>, s: State) {
    && t0 <= s.now
    && (forall k :: k in s.store && Matching(prefix, k) && Live(p, s, k) ==> Harmless(p, t0, s.now, s.store[k].env))
    && (forall t :: t in s.tasks && t !in past && Matching(prefix, KeyOf(s.tasks[t].args)) ==>
          FreshTask(p, t0, s.now, s.tasks[t]))
    && (forall t :: t in past ==> t in s.tasks && !Underway(s.tasks[t].phase))
  }

  lemma FreshStoreStep(p: Params, up: Upstream, prefix: string, t0: nat, past: set<nat>, s: State, a: Action)
    requires FreshSince(p, prefix, t0, past, s) && Enabled(s, a)
    ensures var n := Next(p, up, s, a);
            t0 <= n.now && forall k :: k in n.store && Matching(prefix, k) && Live(p, n, k) ==>
                                 Harmless(p, t0, n.now, n.store[k].env)
  {
    hide KeyOf, Matching, Next;
    var n := Next(p, up, s, a);
    ClockStep(p, up, s, a);
    forall k | k in n.store && Matching(prefix, k) && Live(p, n, k) ensures Harmless(p, t0, n.now, n.store[k].env) {
      EntryStep(p, up, s, a, k);
      if a.Write? && KeyOf(s.tasks[a.t].args) == k { assert s.tasks[a.t].phase.Stamped?; }
    }
  }

  lemma FreshTaskStep(p: Params, up: Upstream, prefix: string, t0: nat, past: set<nat>, s: State, a: Action)
    requires FreshSince(p, prefix, t0, past, s) && Enabled(s, a)
    ensures var n := Next(p, up, s, a);
            forall t :: t in n.tasks && t !in past && Matching(prefix, KeyOf(n.tasks[t].args)) ==>
              FreshTask(p, t0, n.now, n.tasks[t])
  {
    hide KeyOf, Matching, FreshTask, Next, Enabled;
    var n := Next(p, up, s, a);
    forall t | t in n.tasks && t !in past && Matching(prefix, KeyOf(n.tasks[t].args))
      ensures FreshTask(p, t0, n.now, n.tasks[t])
    {
      FreshOneStep(p, up, prefix, t0, past, s, a, t);
    }
  }

  lemma FreshOneStep(p: Params, up: Upstream, prefix: string, t0: nat, past: set<nat>, s: State, a: Action, t: nat)
    requires FreshSince(p, prefix, t0, past, s) && Enabled(s, a)
    requires var n := Next(p, up, s, a); t in n.tasks && t !in past && Matching(prefix, KeyOf(n.tasks[t].args))
    ensures FreshTask(p, t0, Next(p, up, s, a).now, Next(p, up, s, a).tasks[t])
  {
    hide KeyOf, Matching, Next;
    TaskStep(p, up, s, a, t);
    ClockStep(p, up, s, a);
    if a.Decide? && t !in s.tasks { assert a.t in s.tasks; }
  }

  lemma PastStep(p: Params, up: Upstream, prefix: string, t0: nat, past: set<nat>, s: State, a: Action)
    requires FreshSince(p, prefix, t0, past, s) && Enabled(s, a)
    ensures var n := Next(p, up, s, a);
            forall t :: t in past ==> t in n.tasks && !Underway(n.tasks[t].phase)
  {
    hide KeyOf, Matching, Next;
    forall t | t in past ensures t in Next(p, up, s, a).tasks && !Underway(Next(p, up, s, a).tasks[t].phase) {
      TaskStays(p, up, s, a, t);
      TaskStep(p, up, s, a, t);
    }
  }

  lemma FreshStep(p: Params, up: Upstream, prefix: string, t0: nat, past: set<nat>, s: State, a: Action)
    requires FreshSince(p, prefix, t0, past, s) && Enabled(s, a)
    ensures FreshSince(p, prefix, t0, past, Next(p, up, s, a))
  {
    hide KeyOf, Matching, MatchingKeys, Next, Enabled, FreshTask, Underway;
    FreshStoreStep(p, up, prefix, t0, past, s, a);
    FreshTaskStep(p, up, prefix, t0, past, s, a);
    PastStep(p, up, prefix, t0, past, s, a);
  }

  /** The tasks that are over. */
  function Past(s: State): set<nat> {
    set t | t in s.tasks && !Underway(s.tasks[t].phase)
  }

  lemma SweepClears(p: Params, up: Upstream, i: nat, prefix: string, s: State)
    requires Sweeping(i, prefix, s) && Still(prefix, s) && Enabled(s, SweepDelete(i))
    ensures FreshSince(p, prefix, s.now, Past(s), Next(p, up, s, SweepDelete(i)))
    ensures forall k :: k in s.store && !Matching(prefix, k) ==>
              var n := Next(p, up, s, SweepDelete(i)); k in n.store && n.store[k] == s.store[k]
  {
    hide KeyOf, Matching;
  }

  lemma {:induction false} RunFresh(p: Params, up: Upstream, prefix: string, t0: nat, past: set<nat>,
                                    tr: seq<State>, acts: seq<Action>, m: nat, n: nat)
    requires Run(p, up, tr, acts) && m <= n < |tr| && FreshSince(p, prefix, t0, past, tr[m])
    ensures FreshSince(p, prefix, t0, past, tr[n])
  {
    hide FreshSince, Next, Enabled;
    if m < n {
      RunFresh(p, up, prefix, t0, past, tr, acts, m, n - 1);
      FreshStep(p, up, prefix, t0, past, tr[n - 1], acts[n - 1]);
    }
  }

  /** A scan-and-delete that no matching read-and-fetch overlaps, from its SCAN at index 0
      to its DEL at index m. */
  ghost predicate CleanSweep(p: Params, up: Upstream, i: nat, prefix: string,
                             tr: seq<State>, acts: seq<Action>, m: nat)
  {
    && Run(p, up, tr, acts) && 0 < m < |acts|
    && acts[0] == SweepStart(i, prefix) && acts[m] == SweepDelete(i)
    && (forall j :: 0 <= j <= m ==> Still(prefix, tr[j]))
    && (forall j :: 0 < j < m ==> acts[j] != SweepDelete(i) && acts[j] != SweepError(i))
  }

  /** Whatever a matching task serves after the DEL was read upstream after it. */
  lemma InvalidationFresh(p: Params, up: Upstream, i: nat, prefix: string,
                          tr: seq<State>, acts: seq<Action>, m: nat, n: nat, t: nat)
    requires CleanSweep(p, up, i, prefix, tr, acts, m) && m < n < |tr|
    requires t in tr[n].tasks && tr[n].tasks[t].phase.Served?
    requires t !in Past(tr[m]) && Matching(prefix, KeyOf(tr[n].tasks[t].args))
    ensures tr[n].tasks[t].phase.readAt >= tr[m].now
  {
    hide KeyOf, Matching, Past, Next, Still;
    RunSweeping(p, up, i, prefix, tr, acts, m);
    SweepClears(p, up, i, prefix, tr[m]);
    RunFresh(p, up, prefix, tr[m].now, Past(tr[m]), tr, acts, m + 1, n);
  }

  /** The DEL leaves every key outside the prefix as it was. */
  lemma InvalidationUntouched(p: Params, up: Upstream, i: nat, prefix: string,
                              tr: seq<State>, acts: seq<Action>, m: nat, k: string)
    requires CleanSweep(p, up, i, prefix, tr, acts, m) && Literal(prefix) && !(prefix <= k)
    ensures k in tr[m].store <==> k in tr[m + 1].store
    ensures k in tr[m].store ==> tr[m + 1].store[k] == tr[m].store[k]
  {
    hide KeyOf, Next, Still, Glob;
    RunSweeping(p, up, i, prefix, tr, acts, m);
    SweepClears(p, up, i, prefix, tr[m]);
    LiteralPrefixGlob(prefix, k);
    DeleteOnlyRemoves(p, up, tr[m], i);
  }

  lemma DeleteOnlyRemoves(p: Params, up: Upstream, s: State, i: nat)
    requires Enabled(s, SweepDelete(i))
    ensures Next(p, up, s, SweepDelete(i)).store.Keys <= s.store.Keys
  {}

  // ------------------------------------------------- the two prefixes of a property

  /** invalidatePropertyCache(slug): after its sweep over the slug's key and its sweep over
      the listings, every response for that slug, and for every listing page, was read
      upstream after the sweep that covers it, provided that the slug's pattern finds the
      slug's key; it does when the slug has no metacharacter. */
  lemma PropertyInvalidationFresh(p: Params, up: Upstream, i: nat, slug: string,
                                  tr: seq<State>, acts: seq<Action>, m: nat, n: nat, t: nat)
    requires m < n < |tr| && t in tr[n].tasks
    requires var prefix := if tr[n].tasks[t].args.Single? then SINGLE_PREFIX + slug else LISTING_PREFIX;
             CleanSweep(p, up, i, prefix, tr, acts, m)
    requires tr[n].tasks[t].phase.Served? && t !in Past(tr[m])
    requires tr[n].tasks[t].args.Single? ==> tr[n].tasks[t].args.slug == slug && FindsItself(slug)
    ensures tr[n].tasks[t].phase.readAt >= tr[m].now
  {
    hide Glob, FindsItself, Past, Next, Still, Integer;
    var a := tr[n].tasks[t].args;
    var prefix := if a.Single? then SINGLE_PREFIX + slug else LISTING_PREFIX;
    if a.Listing? {
      LiteralPrefixGlob(LISTING_PREFIX, KeyOf(a));
      ListingKeysHavePrefix(a.first, a.after);
    } else {
      SlugPattern(slug);
    }
    InvalidationFresh(p, up, i, prefix, tr, acts, m, n, t);
  }

  /** When it does not, the sweep leaves the slug's old page where it was. */
  lemma InvalidationMissesSlug(p: Params, up: Upstream, i: nat, slug: string,
                               tr: seq<State>, acts: seq<Action>, m: nat)
    requires !FindsItself(slug) && CleanSweep(p, up, i, SINGLE_PREFIX + slug, tr, acts, m)
    requires KeyOf(Single(slug)) in tr[m].store
    ensures KeyOf(Single(slug)) in tr[m + 1].store
    ensures tr[m + 1].store[KeyOf(Single(slug))] == tr[m].store[KeyOf(Single(slug))]
  {
    hide KeyOf, Next, Still, Glob, FindsItself;
    RunSweeping(p, up, i, SINGLE_PREFIX + slug, tr, acts, m);
    SweepClears(p, up, i, SINGLE_PREFIX + slug, tr[m]);
    SlugPattern(slug);
  }

  // ------------------------------------------------ an overlapping fetch undoes it

  const PAGE := Single("a")
  const OVERLAP := [Read(1, PAGE), Decide(1, 9), Ask(1), Tick(1), SweepStart(7, SINGLE_PREFIX + "a"),
                    SweepDelete(7), Stamp(1), Write(1, true), Read(2, PAGE), Decide(2, 10)]

  function OverlapState(up: Upstream, n: nat): State {
    var k := KeyOf(PAGE);
    var now := if n < 4 then 0 else 1;
    var data := up(PAGE, 0);
    var e := Envelope(data, 1, 0, PAGE);
    var served := Served(data, 0, PAGE, 1);
    var first := Task(PAGE, false, 0,
                      if n == 1 then Got(None) else if n == 2 then Fetching
                      else if n < 7 then Fetched(data, 0) else if n == 7 then Stamped(e) else served);
    var second := Task(PAGE, false, 1, if n == 9 then Got(Some(e)) else served);
    State(now, if n < 8 then map[] else map[k := Stored(e, 1)],
          if n == 0 then map[] else if n < 9 then map[1 := first] else map[1 := first, 2 := second],
          if n < 5 then map[] else map[7 := Sweep(SINGLE_PREFIX + "a", {}, {}, n > 5)],
          if n < 2 then map[] else map[k := [0]])
  }

  lemma OverlapFirst(p: Params, up: Upstream, n: nat)
    requires n < 6 && p.ttl > 0
    ensures Enabled(OverlapState(up, n), OVERLAP[n])
    ensures Next(p, up, OverlapState(up, n), OVERLAP[n]) == OverlapState(up, n + 1)
  {
    hide KeyOf, Matching;
    var s, t := OverlapState(up, n), OverlapState(up, n + 1);
    var next := Next(p, up, s, OVERLAP[n]);
    assert next.tasks == t.tasks;
    assert next.store == t.store;
    if n == 4 { assert MatchingKeys(s, SINGLE_PREFIX + "a") == {}; }
    if n == 5 { assert next.sweeps[7] == t.sweeps[7] && next.sweeps.Keys == {7}; }
    assert next.sweeps == t.sweeps;
    if n == 1 { assert next.launches[KeyOf(PAGE)] == [0]; }
    assert next.launches == t.launches;
  }

  lemma OverlapSecond(p: Params, up: Upstream, n: nat)
    requires 6 <= n < 8 && p.ttl > 0
    ensures Enabled(OverlapState(up, n), OVERLAP[n])
    ensures Next(p, up, OverlapState(up, n), OVERLAP[n]) == OverlapState(up, n + 1)
  {
    hide KeyOf, Matching;
    var next := Next(p, up, OverlapState(up, n), OVERLAP[n]);
    assert next.tasks == OverlapState(up, n + 1).tasks;
    assert next.store == OverlapState(up, n + 1).store;
  }

  lemma OverlapThird(p: Params, up: Upstream, n: nat)
    requires 8 <= n < 10 && p.ttl > 0
    ensures Enabled(OverlapState(up, n), OVERLAP[n])
    ensures Next(p, up, OverlapState(up, n), OVERLAP[n]) == OverlapState(up, n + 1)
  {
    hide KeyOf, Matching;
    var next := Next(p, up, OverlapState(up, n), OVERLAP[n]);
    assert next.tasks == OverlapState(up, n + 1).tasks;
  }

  /** A fetch under way across the DEL writes its old answer back, and a read begun after
      the DEL is served a value read before it. */
  lemma OverlapUndoesInvalidation(p: Params, up: Upstream) returns (tr: seq<State>)
    requires p.ttl > 0
    ensures Run(p, up, tr, OVERLAP) && tr[0] == Init() && OVERLAP[5] == SweepDelete(7)
    ensures 2 !in tr[6].tasks && 2 in tr[10].tasks
    ensures tr[10].tasks[2].phase.Served? && tr[10].tasks[2].phase.readAt < tr[5].now
  {
    tr := seq(11, n requires 0 <= n < 11 => OverlapState(up, n));
    forall i | 0 <= i < |OVERLAP|
      ensures Enabled(tr[i], OVERLAP[i]) && tr[i + 1] == Next(p, up, tr[i], OVERLAP[i])
    {
      hide Next, Enabled, OverlapState;
      if i < 6 { OverlapFirst(p, up, i); } else if i < 8 { OverlapSecond(p, up, i); } else { OverlapThird(p, up, i); }
    }
  }
}
