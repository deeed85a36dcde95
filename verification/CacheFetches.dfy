/** How often the cache asks the upstream. */
module CacheFetches {
  import opened CacheKeys
  import opened Cache

  predicate Flying(ph: Phase) { ph.Fetching? || ph.Fetched? || ph.Stamped? }

  /** No read-and-fetch of key k is under way. */
  ghost predicate Quiet(s: State, k: string) {
    forall t :: t in s.tasks && KeyOf(s.tasks[t].args) == k ==> !Flying(s.tasks[t].phase)
  }

  /** Action a asks the upstream for key k. */
  ghost predicate Fetches(p: Params, up: Upstream, s: State, a: Action, k: string)
    requires Enabled(s, a)
  {
    a.Decide? && KeyOf(s.tasks[a.t].args) == k && Next(p, up, s, a).launches != s.launches
  }

  ghost predicate Deletes(s: State, a: Action, k: string)
    requires Enabled(s, a)
  {
    a.SweepDelete? && k in s.sweeps[a.i].found
  }

  lemma LaunchGrows(s: State, k: string)
    ensures Launched(s, k) != s.launches
  {
    assert Launched(s, k)[k] == Launches(s, k) + [s.now];
    if k in s.launches { assert |Launched(s, k)[k]| > |s.launches[k]|; }
  }

  /** A decision fetches exactly when it found nothing, or nothing younger than the ttl. */
  lemma FetchesIff(p: Params, up: Upstream, s: State, a: Action, k: string)
    requires Enabled(s, a) && a.Decide? && KeyOf(s.tasks[a.t].args) == k
    ensures var raw := s.tasks[a.t].phase.raw;
            Fetches(p, up, s, a, k) <==> raw.None? || Age(s, raw.value) >= p.ttl
  {
    LaunchGrows(s, k);
  }

  // -------------------------------------------- no fetch while the last write is fresh

  /** No SET of k lands with a stamp before c. */
  ghost predicate NoOlderSet(c: int, k: string, s: State, a: Action)
    requires Enabled(s, a)
  {
    a.Write? && KeyOf(s.tasks[a.t].args) == k ==> s.tasks[a.t].phase.env.cachedAt >= c
  }

  /** The entry of k, and what every task outside `before` has read of it, is stamped no
      earlier than c; only the expiry of such an entry lets a read find nothing. */
  ghost predicate Recent(c: int, before: set<nat>, k: string, s: State) {
    && c <= s.now
    && k in s.store && s.store[k].env.cachedAt >= c && s.store[k].setAt >= c
    && (forall t :: t in s.tasks && t !in before && KeyOf(s.tasks[t].args) == k && s.tasks[t].phase.Got? ==>
          var raw := s.tasks[t].phase.raw;
          if raw.Some? then raw.value.cachedAt >= c else s.now >= c + EXPIRY)
  }

  lemma RecentEntry(p: Params, up: Upstream, c: int, before: set<nat>, k: string, s: State, a: Action)
    requires Recent(c, before, k, s) && Enabled(s, a) && NoOlderSet(c, k, s, a) && !Deletes(s, a, k)
    ensures var n := Next(p, up, s, a); k in n.store && n.store[k].env.cachedAt >= c && n.store[k].setAt >= c
  {
    hide KeyOf, Next;
    EntryStep(p, up, s, a, k);
  }

  lemma RecentTask(p: Params, up: Upstream, c: int, before: set<nat>, k: string, s: State, a: Action, t: nat)
    requires Recent(c, before, k, s) && Enabled(s, a) && t in Next(p, up, s, a).tasks && t !in before
    requires var u := Next(p, up, s, a).tasks[t]; KeyOf(u.args) == k && u.phase.Got?
    ensures var raw := Next(p, up, s, a).tasks[t].phase.raw;
            if raw.Some? then raw.value.cachedAt >= c else Next(p, up, s, a).now >= c + EXPIRY
  {
    hide KeyOf, Next;
    TaskStep(p, up, s, a, t);
    ClockStep(p, up, s, a);
  }

  lemma RecentStep(p: Params, up: Upstream, c: int, before: set<nat>, k: string, s: State, a: Action)
    requires Recent(c, before, k, s) && Enabled(s, a) && NoOlderSet(c, k, s, a) && !Deletes(s, a, k)
    ensures Recent(c, before, k, Next(p, up, s, a))
  {
    hide KeyOf, Next, Enabled, Deletes, TaskMoves;
    var n := Next(p, up, s, a);
    ClockStep(p, up, s, a);
    RecentEntry(p, up, c, before, k, s, a);
    forall t | t in n.tasks && t !in before && KeyOf(n.tasks[t].args) == k && n.tasks[t].phase.Got?
      ensures var raw := n.tasks[t].phase.raw;
              if raw.Some? then raw.value.cachedAt >= c else n.now >= c + EXPIRY
    {
      RecentTask(p, up, c, before, k, s, a, t);
    }
  }

  lemma {:induction false} RunRecent(p: Params, up: Upstream, c: int, k: string,
                                     tr: seq<State>, acts: seq<Action>, i: nat)
    requires Run(p, up, tr, acts) && i < |tr|
    requires Recent(c, tr[0].tasks.Keys, k, tr[0])
    requires forall j :: 0 <= j < |acts| ==> NoOlderSet(c, k, tr[j], acts[j]) && !Deletes(tr[j], acts[j], k)
    ensures Recent(c, tr[0].tasks.Keys, k, tr[i])
  {
    if i > 0 {
      hide Recent, Next, Enabled, NoOlderSet, Deletes;
      RunRecent(p, up, c, k, tr, acts, i - 1);
      RecentStep(p, up, c, tr[0].tasks.Keys, k, tr[i - 1], acts[i - 1]);
    }
  }

  /** With an entry in the store that is not invalidated, and as long as no SET stamped
      before c lands on it, no read begun later fetches before c + ttl, however many
      refreshes overlap. With c the entry's own stamp this is the whole ttl. */
  lemma NoFetchUnlessOlderSet(p: Params, up: Upstream, c: int, k: string,
                              tr: seq<State>, acts: seq<Action>, i: nat)
    requires Run(p, up, tr, acts) && i < |acts| && p.ttl <= EXPIRY
    requires k in tr[0].store && c <= tr[0].now
    requires tr[0].store[k].env.cachedAt >= c && tr[0].store[k].setAt >= c
    requires forall j :: 0 <= j < |acts| ==> NoOlderSet(c, k, tr[j], acts[j]) && !Deletes(tr[j], acts[j], k)
    requires Fetches(p, up, tr[i], acts[i], k) && acts[i].t !in tr[0].tasks
    ensures tr[i].now >= c + p.ttl
  {
    hide KeyOf, NoOlderSet, Deletes, Next;
    RunRecent(p, up, c, k, tr, acts, i);
    FetchesIff(p, up, tr[i], acts[i], k);
  }

  /** A SET lands within w of the stamp its envelope carries. */
  ghost predicate QuickWrites(w: nat, s: State) {
    forall t :: t in s.tasks && s.tasks[t].phase.Stamped? ==> s.now <= s.tasks[t].phase.env.cachedAt + w
  }

  /** If every SET lands within w of its stamp, then from a write on no read begun later
      fetches before ttl - w has passed. */
  lemma NoFetchWhileFresh(p: Params, up: Upstream, w: nat, k: string,
                          tr: seq<State>, acts: seq<Action>, i: nat)
    requires Run(p, up, tr, acts) && i < |acts| && p.ttl <= EXPIRY
    requires k in tr[0].store && tr[0].store[k].setAt == tr[0].now
    requires tr[0].store[k].env.cachedAt + w >= tr[0].now
    requires forall j :: 0 <= j < |acts| ==> QuickWrites(w, tr[j]) && !Deletes(tr[j], acts[j], k)
    requires Fetches(p, up, tr[i], acts[i], k) && acts[i].t !in tr[0].tasks
    ensures tr[i].now >= tr[0].now + p.ttl - w
  {
    hide KeyOf, Deletes, Next, Fetches;
    forall j | 0 <= j < |acts| ensures NoOlderSet(tr[0].now - w, k, tr[j], acts[j]) {
      RunClock(p, up, tr, acts, 0, j);
      assert QuickWrites(w, tr[j]) && Enabled(tr[j], acts[j]);
    }
    NoFetchUnlessOlderSet(p, up, tr[0].now - w, k, tr, acts, i);
  }

  // --------------------------------------------------------- one fetch per ttl at most

  /** Every fetch of k succeeds, and none is invalidated. */
  ghost predicate Undisturbed(k: string, s: State, a: Action)
    requires Enabled(s, a)
  {
    && !Deletes(s, a, k)
    && (a.FetchError? || a.WriteError? ==> KeyOf(s.tasks[a.t].args) != k)
  }

  /** Since a fetch of k was launched at time t0: what is being written, or was written,
      is stamped no earlier. */
  ghost predicate Since(t0: nat, k: string, s: State) {
    && t0 <= s.now
    && (forall t :: t in s.tasks && KeyOf(s.tasks[t].args) == k && s.tasks[t].phase.Stamped? ==>
          s.tasks[t].phase.env.cachedAt >= t0)
    && (!Quiet(s, k) || (k in s.store && s.store[k].env.cachedAt >= t0 && s.store[k].setAt >= t0))
  }

  predicate Holds(t0: nat, k: string, s: State) {
    k in s.store && s.store[k].env.cachedAt >= t0 && s.store[k].setAt >= t0
  }

  lemma SinceStoreStep(p: Params, up: Upstream, t0: nat, k: string, s: State, a: Action)
    requires Since(t0, k, s) && Enabled(s, a) && Undisturbed(k, s, a) && Holds(t0, k, s)
    ensures Holds(t0, k, Next(p, up, s, a))
  {
    hide KeyOf, MatchingKeys, Matching;
  }

  lemma FlightStep(p: Params, up: Upstream, t0: nat, k: string, s: State, a: Action, t: nat)
    requires Since(t0, k, s) && Enabled(s, a) && Undisturbed(k, s, a)
    requires t in s.tasks && KeyOf(s.tasks[t].args) == k && Flying(s.tasks[t].phase)
    ensures var n := Next(p, up, s, a);
            (t in n.tasks && n.tasks[t].args == s.tasks[t].args && Flying(n.tasks[t].phase)) || Holds(t0, k, n)
  {
    hide KeyOf, Next, Quiet;
    TaskStays(p, up, s, a, t);
    TaskStep(p, up, s, a, t);
    EntryStep(p, up, s, a, k);
  }

  lemma StampsStep(p: Params, up: Upstream, t0: nat, k: string, s: State, a: Action)
    requires Since(t0, k, s) && Enabled(s, a)
    ensures var n := Next(p, up, s, a);
            t0 <= n.now &&
            forall t :: t in n.tasks && KeyOf(n.tasks[t].args) == k && n.tasks[t].phase.Stamped? ==>
              n.tasks[t].phase.env.cachedAt >= t0
  {
    hide KeyOf, Next, Quiet;
    ClockStep(p, up, s, a);
    forall t | t in Next(p, up, s, a).tasks && KeyOf(Next(p, up, s, a).tasks[t].args) == k
               && Next(p, up, s, a).tasks[t].phase.Stamped?
      ensures Next(p, up, s, a).tasks[t].phase.env.cachedAt >= t0
    {
      TaskStep(p, up, s, a, t);
    }
  }

  lemma SinceStep(p: Params, up: Upstream, t0: nat, k: string, s: State, a: Action)
    requires Since(t0, k, s) && Enabled(s, a) && Undisturbed(k, s, a)
    ensures Since(t0, k, Next(p, up, s, a))
  {
    hide KeyOf, Next, Enabled, Undisturbed, Flying;
    StampsStep(p, up, t0, k, s, a);
    if Quiet(s, k) {
      SinceStoreStep(p, up, t0, k, s, a);
    } else {
      var t :| t in s.tasks && KeyOf(s.tasks[t].args) == k && Flying(s.tasks[t].phase);
      FlightStep(p, up, t0, k, s, a, t);
    }
  }

  lemma {:induction false} RunSince(p: Params, up: Upstream, t0: nat, k: string,
                                    tr: seq<State>, acts: seq<Action>, i: nat, j: nat)
    requires Run(p, up, tr, acts) && i <= j < |tr| && Since(t0, k, tr[i])
    requires forall x :: 0 <= x < |acts| ==> Undisturbed(k, tr[x], acts[x])
    ensures Since(t0, k, tr[j])
  {
    if i < j {
      hide Since, Next, Enabled, Undisturbed;
      assert Undisturbed(k, tr[j - 1], acts[j - 1]);
      RunSince(p, up, t0, k, tr, acts, i, j - 1);
      SinceStep(p, up, t0, k, tr[j - 1], acts[j - 1]);
    }
  }

  /** Reads that fetch k do not overlap: while the reading task is there, from its GET to
      its decision, no other fetch of k is under way. */
  ghost predicate Serial(p: Params, up: Upstream, k: string, tr: seq<State>, acts: seq<Action>)
    requires Run(p, up, tr, acts)
  {
    forall i, j :: 0 <= i <= j < |acts| && Fetches(p, up, tr[j], acts[j], k) && acts[j].t in tr[i].tasks ==>
      Quiet(tr[i], k)
  }

  /** The GET of a task that was not there before. */
  lemma {:induction false} FindRead(p: Params, up: Upstream, tr: seq<State>, acts: seq<Action>,
                                    i: nat, j: nat, t: nat) returns (h: nat)
    requires Run(p, up, tr, acts) && i <= j < |tr|
    requires t !in tr[i].tasks && t in tr[j].tasks && tr[j].tasks[t].phase.Got?
    ensures i <= h < j && acts[h].Read? && acts[h].t == t && acts[h].args == tr[j].tasks[t].args
    ensures tr[h + 1].tasks[t].phase == tr[j].tasks[t].phase
    ensures forall x :: h < x <= j ==> t in tr[x].tasks
  {
    if t in tr[j - 1].tasks {
      StillGot(p, up, tr[j - 1], acts[j - 1], t);
      h := FindRead(p, up, tr, acts, i, j - 1, t);
    } else {
      NewGot(p, up, tr[j - 1], acts[j - 1], t);
      h := j - 1;
    }
  }

  lemma StillGot(p: Params, up: Upstream, s: State, a: Action, t: nat)
    requires Enabled(s, a) && t in s.tasks
    ensures t in Next(p, up, s, a).tasks
    ensures Next(p, up, s, a).tasks[t].phase.Got? ==> Next(p, up, s, a).tasks[t] == s.tasks[t]
  {
    hide KeyOf, Next;
    TaskStays(p, up, s, a, t);
    TaskStep(p, up, s, a, t);
  }

  lemma NewGot(p: Params, up: Upstream, s: State, a: Action, t: nat)
    requires Enabled(s, a) && t !in s.tasks && t in Next(p, up, s, a).tasks
    requires Next(p, up, s, a).tasks[t].phase.Got?
    ensures a.Read? && a.t == t && a.args == Next(p, up, s, a).tasks[t].args
  {
    hide KeyOf, MatchingKeys, Matching;
  }

  lemma LaunchBegins(p: Params, up: Upstream, s: State, a: Action, k: string)
    requires Enabled(s, a) && Fetches(p, up, s, a, k) && Quiet(s, k)
    ensures !Quiet(Next(p, up, s, a), k) && Since(s.now, k, Next(p, up, s, a))
    ensures Next(p, up, s, a).now == s.now
  {
    hide KeyOf;
    FetchesIff(p, up, s, a, k);
    var n := Next(p, up, s, a);
    var f := if a.b in n.tasks then a.b else a.t;
    assert f in n.tasks && KeyOf(n.tasks[f].args) == k && Flying(n.tasks[f].phase);
  }

  /** Two fetches of k start at least a ttl apart. */
  lemma FetchesSpaced(p: Params, up: Upstream, k: string, tr: seq<State>, acts: seq<Action>, i: nat, j: nat)
    requires Run(p, up, tr, acts) && i < j < |acts| && (p.expiring ==> p.ttl <= EXPIRY)
    requires forall x :: 0 <= x < |acts| ==> Undisturbed(k, tr[x], acts[x])
    requires Serial(p, up, k, tr, acts)
    requires Fetches(p, up, tr[i], acts[i], k) && Fetches(p, up, tr[j], acts[j], k)
    ensures tr[j].now >= tr[i].now + p.ttl
  {
    hide KeyOf, Next, Since, Quiet, Undisturbed;
    var t := acts[j].t;
    assert acts[i].t in tr[i].tasks;
    LaunchBegins(p, up, tr[i], acts[i], k);
    assert t !in tr[i + 1].tasks;
    var h := FindRead(p, up, tr, acts, i + 1, j, t);
    assert Quiet(tr[h + 1], k);
    RunSince(p, up, tr[i].now, k, tr, acts, i + 1, h);
    ReadAfter(p, up, tr[i].now, k, tr[h], acts[h]);
    FetchesIff(p, up, tr[j], acts[j], k);
    RunClock(p, up, tr, acts, h, j);
  }

  /** What a GET at a quiet moment finds. */
  lemma ReadAfter(p: Params, up: Upstream, t0: nat, k: string, s: State, a: Action)
    requires Enabled(s, a) && a.Read? && KeyOf(a.args) == k && Since(t0, k, s) && Quiet(Next(p, up, s, a), k)
    ensures var raw := Next(p, up, s, a).tasks[a.t].phase.raw;
            if raw.Some? then raw.value.cachedAt >= t0 else p.expiring && s.now >= t0 + EXPIRY
  {
    hide KeyOf;
    var n := Next(p, up, s, a);
    forall t | t in s.tasks && KeyOf(s.tasks[t].args) == k ensures !Flying(s.tasks[t].phase) {
      assert n.tasks[t] == s.tasks[t];
    }
    assert Quiet(s, k);
  }

  lemma {:induction false} RunClock(p: Params, up: Upstream, tr: seq<State>, acts: seq<Action>, i: nat, j: nat)
    requires Run(p, up, tr, acts) && i <= j < |tr|
    ensures tr[i].now <= tr[j].now
  {
    hide Next, Enabled;
    if i < j {
      RunClock(p, up, tr, acts, i, j - 1);
      ClockStep(p, up, tr[j - 1], acts[j - 1]);
    }
  }

  /** How many of the first n actions fetch k. */
  ghost function FetchCount(p: Params, up: Upstream, k: string, tr: seq<State>, acts: seq<Action>, n: nat): nat
    requires Run(p, up, tr, acts) && n <= |acts|
  {
    if n == 0 then 0
    else FetchCount(p, up, k, tr, acts, n - 1) + (if Fetches(p, up, tr[n - 1], acts[n - 1], k) then 1 else 0)
  }

  lemma {:induction false} CountedTime(p: Params, up: Upstream, k: string,
                                       tr: seq<State>, acts: seq<Action>, n: nat) returns (i: nat)
    requires Run(p, up, tr, acts) && n <= |acts| && (p.expiring ==> p.ttl <= EXPIRY)
    requires forall x :: 0 <= x < |acts| ==> Undisturbed(k, tr[x], acts[x])
    requires Serial(p, up, k, tr, acts)
    requires FetchCount(p, up, k, tr, acts, n) > 0
    ensures i < n && Fetches(p, up, tr[i], acts[i], k)
    ensures tr[i].now >= tr[0].now + (FetchCount(p, up, k, tr, acts, n) - 1) * p.ttl
  {
    hide Next, Undisturbed, Serial, Fetches;
    if Fetches(p, up, tr[n - 1], acts[n - 1], k) {
      i := n - 1;
      var c := FetchCount(p, up, k, tr, acts, n - 1);
      if c > 0 {
        var j := CountedTime(p, up, k, tr, acts, n - 1);
        FetchesSpaced(p, up, k, tr, acts, j, i);
        OneMore(c, p.ttl);
      } else {
        RunClock(p, up, tr, acts, 0, i);
      }
    } else {
      i := CountedTime(p, up, k, tr, acts, n - 1);
    }
  }

  lemma OneMore(c: nat, d: nat)
    requires c > 0
    ensures (c - 1) * d + d == c * d
  {}

  /** When reads that fetch k do not overlap and all succeed, a span of any length with no
      invalidation holds at most 1 + floor(span / ttl) fetches. */
  lemma FetchBound(p: Params, up: Upstream, k: string, tr: seq<State>, acts: seq<Action>)
    requires Run(p, up, tr, acts) && (p.expiring ==> p.ttl <= EXPIRY) && p.ttl > 0
    requires forall x :: 0 <= x < |acts| ==> Undisturbed(k, tr[x], acts[x])
    requires Serial(p, up, k, tr, acts)
    ensures tr[|acts|].now >= tr[0].now
    ensures FetchCount(p, up, k, tr, acts, |acts|) <= 1 + (tr[|acts|].now - tr[0].now) / p.ttl
  {
    hide Next, Undisturbed, Serial, Fetches;
    RunClock(p, up, tr, acts, 0, |acts|);
    var c := FetchCount(p, up, k, tr, acts, |acts|);
    if c > 0 {
      var i := CountedTime(p, up, k, tr, acts, |acts|);
      RunClock(p, up, tr, acts, i, |acts|);
      DivBound(c - 1, tr[|acts|].now - tr[0].now, p.ttl);
    }
  }

  lemma DivBound(n: nat, span: nat, d: nat)
    requires d > 0 && n * d <= span
    ensures n <= span / d
  {
    var q := span / d;
    assert span < (q + 1) * d;
    if n >= q + 1 { TimesGrows(q + 1, n, d); }
  }

  lemma TimesGrows(a: nat, b: nat, d: nat)
    requires a <= b
    ensures a * d <= b * d
  {}
}
