/** Overlapping reads: there is no single flight, and a SET with an older stamp can land on
    a newer one. Where the bounds of CacheFetches stop holding. */
module CacheOverlap {
  import opened Wrappers
  import opened CacheKeys
  import opened Cache
  import opened CacheFetches

  lemma Extend(p: Params, up: Upstream, tr: seq<State>, acts: seq<Action>, a: Action)
    returns (tr': seq<State>, acts': seq<Action>)
    requires Run(p, up, tr, acts) && Enabled(tr[|acts|], a)
    ensures Run(p, up, tr', acts') && acts' == acts + [a] && tr' == tr + [Next(p, up, tr[|acts|], a)]
    ensures |tr| == |acts| + 1 && |tr'| == |acts'| + 1 && tr'[|acts'|] == Next(p, up, tr[|acts|], a)
  {
    hide Next, Enabled;
    tr', acts' := tr + [Next(p, up, tr[|acts|], a)], acts + [a];
  }

  // ----------------------------------------------------- every overlapping read fetches

  /** A read now would be served without a fetch. */
  ghost predicate Young(p: Params, s: State, k: string) {
    Live(p, s, k) && Age(s, s.store[k].env) < p.ttl
  }

  lemma {:induction false} CountOfPrefix(p: Params, up: Upstream, k: string, tr: seq<State>, acts: seq<Action>,
                                         tr': seq<State>, acts': seq<Action>, n: nat)
    requires Run(p, up, tr, acts) && Run(p, up, tr', acts') && tr <= tr' && acts <= acts' && n <= |acts|
    ensures FetchCount(p, up, k, tr', acts', n) == FetchCount(p, up, k, tr, acts, n)
  {
    hide Next, Enabled, Fetches;
    if n > 0 { CountOfPrefix(p, up, k, tr, acts, tr', acts', n - 1); }
  }

  lemma ReadFetches(p: Params, up: Upstream, s: State, args: Args, t: nat)
    requires !Young(p, s, KeyOf(args)) && t !in s.tasks && t + 1 !in s.tasks
    ensures Enabled(s, Read(t, args))
    ensures var u := Next(p, up, s, Read(t, args));
            && Enabled(u, Decide(t, t + 1)) && Fetches(p, up, u, Decide(t, t + 1), KeyOf(args))
            && !Fetches(p, up, s, Read(t, args), KeyOf(args))
            && var v := Next(p, up, u, Decide(t, t + 1));
               v.now == s.now && v.store == s.store && forall x :: x in v.tasks ==> x in s.tasks || x <= t + 1
  {
    hide KeyOf;
    FetchesIff(p, up, Next(p, up, s, Read(t, args)), Decide(t, t + 1), KeyOf(args));
  }

  /** From any state in which k is absent, stale or too old, any number of reads at that
      very moment all ask the upstream: n reads are n fetches in a span of 0. */
  lemma {:induction false} OverlappingReadsAllFetch(p: Params, up: Upstream, s: State, args: Args, base: nat, n: nat)
    returns (tr: seq<State>, acts: seq<Action>)
    requires !Young(p, s, KeyOf(args)) && forall x :: x in s.tasks ==> x < base
    ensures Run(p, up, tr, acts) && tr[0] == s && |acts| == 2 * n
    ensures FetchCount(p, up, KeyOf(args), tr, acts, |acts|) == n
    ensures tr[|acts|].now == s.now && tr[|acts|].store == s.store
    ensures forall x :: x in tr[|acts|].tasks ==> x < base + 2 * n
  {
    if n == 0 {
      tr, acts := [s], [];
    } else {
      hide KeyOf, Next, Enabled, Fetches, FetchCount;
      var tr0, acts0 := OverlappingReadsAllFetch(p, up, s, args, base, n - 1);
      tr, acts := OneMoreRead(p, up, tr0, acts0, args, base + 2 * (n - 1));
    }
  }

  /** One more read that asks the upstream, at the same moment. */
  lemma OneMoreRead(p: Params, up: Upstream, tr: seq<State>, acts: seq<Action>, args: Args, t: nat)
    returns (tr': seq<State>, acts': seq<Action>)
    requires Run(p, up, tr, acts) && !Young(p, tr[|acts|], KeyOf(args))
    requires forall x :: x in tr[|acts|].tasks ==> x < t
    ensures Run(p, up, tr', acts') && tr <= tr' && |acts'| == |acts| + 2
    ensures FetchCount(p, up, KeyOf(args), tr', acts', |acts'|) == FetchCount(p, up, KeyOf(args), tr, acts, |acts|) + 1
    ensures tr'[|acts'|].now == tr[|acts|].now && tr'[|acts'|].store == tr[|acts|].store
    ensures forall x :: x in tr'[|acts'|].tasks ==> x < t + 2
  {
    hide KeyOf, Next, Enabled, Fetches, Young;
    var k, n := KeyOf(args), |acts|;
    ReadFetches(p, up, tr[n], args, t);
    var tr1, acts1 := Extend(p, up, tr, acts, Read(t, args));
    tr', acts' := Extend(p, up, tr1, acts1, Decide(t, t + 1));
    CountOfPrefix(p, up, k, tr, acts, tr', acts', n);
    assert acts'[n] == Read(t, args) && tr'[n] == tr[n];
    assert acts'[n + 1] == Decide(t, t + 1) && tr'[n + 1] == tr1[n + 1];
    hide Run;
    assert FetchCount(p, up, k, tr', acts', n + 1) == FetchCount(p, up, k, tr', acts', n);
  }

  /** Two overlapping reads are enough to break the bound of one fetch per ttl: from an
      empty cache, and from any state whose entry is stale. */
  lemma OverlapBreaksFetchBound(p: Params, up: Upstream, s: State, args: Args, base: nat, n: nat)
    returns (tr: seq<State>, acts: seq<Action>)
    requires s == Init() || (KeyOf(args) in s.store && Age(s, s.store[KeyOf(args)].env) >= p.ttl)
    requires p.ttl > 0 && n >= 2 && forall x :: x in s.tasks ==> x < base
    ensures Run(p, up, tr, acts) && tr[0] == s
    ensures FetchCount(p, up, KeyOf(args), tr, acts, |acts|) > 1 + (tr[|acts|].now - tr[0].now) / p.ttl
  {
    hide KeyOf, FetchCount, Run;
    tr, acts := OverlappingReadsAllFetch(p, up, s, args, base, n);
  }

  // ------------------------------------------------------------- an older SET lands last

  const PAGE := Single("a")

  /** Two misses fetch at 0. The first is stamped at once, the second w later; the second
      is written first. A third read comes when the first stamp is a ttl old. */
  function LateSet(p: Params, w: nat): seq<Action>
    requires w <= p.ttl
  {
    [Read(1, PAGE), Decide(1, 9), Read(2, PAGE), Decide(2, 9), Ask(1), Ask(2), Stamp(1), Tick(w),
     Stamp(2), Write(2, true), Write(1, true), Tick(p.ttl - w), Read(3, PAGE), Decide(3, 9)]
  }

  function LateSetState(p: Params, up: Upstream, w: nat, n: nat): State {
    var k, data := KeyOf(PAGE), up(PAGE, 0);
    var e1, e2 := Envelope(data, 0, 0, PAGE), Envelope(data, w, 0, PAGE);
    var served := Served(data, 0, PAGE, w);
    var first := Task(PAGE, false, 0,
                      if n == 1 then Got(None) else if n < 5 then Fetching else if n < 7 then Fetched(data, 0)
                      else if n < 11 then Stamped(e1) else served);
    var second := Task(PAGE, false, 0,
                       if n == 3 then Got(None) else if n < 6 then Fetching else if n < 9 then Fetched(data, 0)
                       else if n == 9 then Stamped(e2) else served);
    State(if n < 8 then 0 else if n < 12 then w else p.ttl,
          if n < 10 then map[] else map[k := Stored(if n == 10 then e2 else e1, w)],
          if n == 0 then map[] else if n < 3 then map[1 := first] else if n < 13 then map[1 := first, 2 := second]
          else map[1 := first, 2 := second, 3 := Task(PAGE, false, p.ttl, Got(Some(e1)))],
          map[], if n < 2 then map[] else map[k := if n < 4 then [0] else [0, 0]])
  }

  predicate LateSetStep(p: Params, up: Upstream, w: nat, n: nat)
    requires w <= p.ttl && n < 13
  {
    && Enabled(LateSetState(p, up, w, n), LateSet(p, w)[n])
    && Next(p, up, LateSetState(p, up, w, n), LateSet(p, w)[n]) == LateSetState(p, up, w, n + 1)
  }

  lemma LateReads(p: Params, up: Upstream, w: nat, n: nat)
    requires w <= p.ttl && n < 4
    ensures LateSetStep(p, up, w, n)
  {
    hide KeyOf;
    var next := Next(p, up, LateSetState(p, up, w, n), LateSet(p, w)[n]);
    if n == 1 { assert next.launches[KeyOf(PAGE)] == [0]; }
    if n == 3 { assert next.launches[KeyOf(PAGE)] == [0, 0]; }
    assert next.launches == LateSetState(p, up, w, n + 1).launches;
    assert next.tasks == LateSetState(p, up, w, n + 1).tasks;
  }

  lemma LateFetches(p: Params, up: Upstream, w: nat, n: nat)
    requires w <= p.ttl && 4 <= n < 8
    ensures LateSetStep(p, up, w, n)
  {
    hide KeyOf;
    var next := Next(p, up, LateSetState(p, up, w, n), LateSet(p, w)[n]);
    assert next.tasks == LateSetState(p, up, w, n + 1).tasks;
  }

  lemma LateWrites(p: Params, up: Upstream, w: nat, n: nat)
    requires 0 < w <= p.ttl <= EXPIRY && 8 <= n < 13
    ensures LateSetStep(p, up, w, n)
  {
    hide KeyOf;
    var next := Next(p, up, LateSetState(p, up, w, n), LateSet(p, w)[n]);
    assert next.tasks == LateSetState(p, up, w, n + 1).tasks;
    assert next.store == LateSetState(p, up, w, n + 1).store;
  }

  /** Why the promise is short by w, and that it is not short by less: for every w a run
      that meets the conditions of NoFetchWhileFresh from its write at index 9 on, in which
      a read begun later fetches exactly ttl - w after that write. */
  lemma OlderSetShortensTtl(p: Params, up: Upstream, w: nat) returns (tr: seq<State>)
    requires 0 < w <= p.ttl <= EXPIRY
    ensures Run(p, up, tr, LateSet(p, w)) && tr[0] == Init()
    ensures var k, s := KeyOf(PAGE), tr[10];
            && k in s.store && s.store[k].setAt == s.now && s.store[k].env.cachedAt == s.now
            && (forall j :: 10 <= j < 14 ==> QuickWrites(w, tr[j]) && !Deletes(tr[j], LateSet(p, w)[j], k))
            && 3 !in s.tasks && Fetches(p, up, tr[13], Decide(3, 9), k)
            && tr[13].now == s.now + p.ttl - w
  {
    var last := LateSetState(p, up, w, 13);
    hide KeyOf;
    assert Enabled(last, Decide(3, 9));
    FetchesIff(p, up, last, Decide(3, 9), KeyOf(PAGE));
    tr := seq(14, n requires 0 <= n < 14 => LateSetState(p, up, w, n)) + [Next(p, up, last, Decide(3, 9))];
    forall i | 0 <= i < 14
      ensures Enabled(tr[i], LateSet(p, w)[i]) && tr[i + 1] == Next(p, up, tr[i], LateSet(p, w)[i])
    {
      hide Next, Enabled, LateSetState;
      if i < 4 { LateReads(p, up, w, i); }
      else if i < 8 { LateFetches(p, up, w, i); }
      else if i < 13 { LateWrites(p, up, w, i); }
    }
  }
}
