/** The six-hour expiry of cache entries cannot be noticed, and an outage of the upstream
    is not noticed either until the last good value is too old. */
module CacheExpiry {
  import opened CacheKeys
  import opened Wrappers
  import opened Cache

  // ---------------------------------------------- expiring against never expiring

  /** Task u over the expiring store matches task v over the eternal one: the same, or a
      GET that missed an entry already too old to serve. */
  predicate Alike(p: Params, now: nat, u: Task, v: Task) {
    || u == v
    || (u.phase == Got(None) && v.phase.Got? && v == u.(phase := v.phase)
        && v.phase.raw.Some? && now >= v.phase.raw.value.cachedAt + p.ttl + p.stale)
  }

  ghost predicate Matched(p: Params, s: State, z: State) {
    && z == s.(tasks := z.tasks) && z.tasks.Keys == s.tasks.Keys
    && (forall t :: t in s.tasks ==> Alike(p, s.now, s.tasks[t], z.tasks[t]))
    && (forall k :: k in s.store ==> s.store[k].env.cachedAt <= s.store[k].setAt)
    && (forall t :: t in s.tasks && s.tasks[t].phase.Stamped? ==> s.tasks[t].phase.env.cachedAt <= s.now)
  }

  function Expiring(p: Params): Params { p.(expiring := true) }
  function Eternal(p: Params): Params { p.(expiring := false) }

  lemma MatchedSweep(p: Params, up: Upstream, s: State, z: State, a: Action)
    requires Matched(p, s, z) && Enabled(s, a) && (a.SweepStart? || a.SweepScan? || a.SweepDelete? || a.SweepError?)
    ensures Enabled(z, a)
    ensures Matched(p, Next(Expiring(p), up, s, a), Next(Eternal(p), up, z, a))
  {
    hide KeyOf, Matching, Alike;
    assert forall prefix :: MatchingKeys(s, prefix) == MatchingKeys(z, prefix);
    var s', z' := Next(Expiring(p), up, s, a), Next(Eternal(p), up, z, a);
    assert z'.store == s'.store && z'.sweeps == s'.sweeps;
  }

  lemma MatchedRead(p: Params, up: Upstream, s: State, z: State, a: Action)
    requires p.ttl + p.stale <= EXPIRY && Matched(p, s, z) && Enabled(s, a) && a.Read?
    ensures Enabled(z, a)
    ensures Matched(p, Next(Expiring(p), up, s, a), Next(Eternal(p), up, z, a))
  {
    hide KeyOf, MatchingKeys, Matching;
  }

  lemma MatchedDecide(p: Params, up: Upstream, s: State, z: State, a: Action)
    requires Matched(p, s, z) && Enabled(s, a) && a.Decide?
    ensures Enabled(z, a)
    ensures Matched(p, Next(Expiring(p), up, s, a), Next(Eternal(p), up, z, a))
  {
    hide KeyOf, MatchingKeys, Matching;
    if z.tasks[a.t] == s.tasks[a.t] {
      SameDecide(p, s, z, a.t, a.b);
    } else {
      MissedDecide(p, s, z, a.t, a.b);
    }
  }

  lemma AlikeSelf(p: Params, now: nat, u: Task)
    ensures Alike(p, now, u, u)
  {}

  lemma SameHit(p: Params, s: State, z: State, t: nat, b: nat)
    requires Matched(p, s, z) && t in s.tasks && s.tasks[t].phase.Got? && b !in s.tasks
    requires z.tasks[t] == s.tasks[t]
    requires var raw := s.tasks[t].phase.raw; raw.Some? && Age(s, raw.value) < p.ttl + p.stale
    ensures Matched(p, Decided(Expiring(p), s, t, b), Decided(Eternal(p), z, t, b))
  {
    hide KeyOf, Alike;
    var s' := Decided(Expiring(p), s, t, b);
    AlikeSelf(p, s.now, s'.tasks[t]);
    if b in s'.tasks { AlikeSelf(p, s.now, s'.tasks[b]); }
  }

  lemma SameMiss(p: Params, s: State, z: State, t: nat, b: nat)
    requires Matched(p, s, z) && t in s.tasks && s.tasks[t].phase.Got? && b !in s.tasks
    requires z.tasks[t] == s.tasks[t]
    requires var raw := s.tasks[t].phase.raw; !(raw.Some? && Age(s, raw.value) < p.ttl + p.stale)
    ensures Matched(p, Decided(Expiring(p), s, t, b), Decided(Eternal(p), z, t, b))
  {
    hide KeyOf, Alike;
    var s' := Decided(Expiring(p), s, t, b);
    AlikeSelf(p, s.now, s'.tasks[t]);
  }

  lemma SameDecide(p: Params, s: State, z: State, t: nat, b: nat)
    requires Matched(p, s, z) && t in s.tasks && s.tasks[t].phase.Got? && b !in s.tasks
    requires z.tasks[t] == s.tasks[t]
    ensures Matched(p, Decided(Expiring(p), s, t, b), Decided(Eternal(p), z, t, b))
  {
    hide Matched, Decided;
    var raw := s.tasks[t].phase.raw;
    if raw.Some? && Age(s, raw.value) < p.ttl + p.stale { SameHit(p, s, z, t, b); } else { SameMiss(p, s, z, t, b); }
  }

  lemma MissedDecide(p: Params, s: State, z: State, t: nat, b: nat)
    requires Matched(p, s, z) && t in s.tasks && s.tasks[t].phase.Got? && b !in s.tasks
    requires z.tasks[t] != s.tasks[t]
    ensures z.tasks[t].phase.Got?
    ensures Matched(p, Decided(Expiring(p), s, t, b), Decided(Eternal(p), z, t, b))
  {
    hide KeyOf;
  }

  lemma MatchedTask(p: Params, up: Upstream, s: State, z: State, a: Action)
    requires Matched(p, s, z) && Enabled(s, a)
    requires a.ReadError? || a.Ask? || a.FetchError? || a.Stamp? || a.WriteError?
    ensures Enabled(z, a)
    ensures Matched(p, Next(Expiring(p), up, s, a), Next(Eternal(p), up, z, a))
  {
    hide KeyOf, MatchingKeys, Matching;
  }

  lemma MatchedWrite(p: Params, up: Upstream, s: State, z: State, a: Action)
    requires Matched(p, s, z) && Enabled(s, a) && (a.Write? || a.Tick?)
    ensures Enabled(z, a)
    ensures Matched(p, Next(Expiring(p), up, s, a), Next(Eternal(p), up, z, a))
  {
    hide KeyOf, MatchingKeys, Matching;
  }

  lemma MatchedStep(p: Params, up: Upstream, s: State, z: State, a: Action)
    requires p.ttl + p.stale <= EXPIRY && Matched(p, s, z) && Enabled(s, a)
    ensures Enabled(z, a)
    ensures Matched(p, Next(Expiring(p), up, s, a), Next(Eternal(p), up, z, a))
  {
    hide Matched, Next, Enabled;
    match a {
      case Read(_, _) => MatchedRead(p, up, s, z, a);
      case Decide(_, _) => MatchedDecide(p, up, s, z, a);
      case SweepStart(_, _) => MatchedSweep(p, up, s, z, a);
      case SweepScan(_, _) => MatchedSweep(p, up, s, z, a);
      case SweepDelete(_) => MatchedSweep(p, up, s, z, a);
      case SweepError(_) => MatchedSweep(p, up, s, z, a);
      case Write(_, _) => MatchedWrite(p, up, s, z, a);
      case Tick(_) => MatchedWrite(p, up, s, z, a);
      case _ => MatchedTask(p, up, s, z, a);
    }
  }

  /** What a caller and the upstream can notice of a state. */
  ghost predicate SameSeen(s: State, z: State) {
    && z.launches == s.launches && z.now == s.now && z.tasks.Keys == s.tasks.Keys
    && forall t :: t in s.tasks ==>
         && (s.tasks[t].phase.Got? <==> z.tasks[t].phase.Got?)
         && (!s.tasks[t].phase.Got? ==> z.tasks[t] == s.tasks[t])
  }

  /** The same actions can be taken over a store that never expires, with the same
      responses and the same fetches at every point. */
  lemma {:induction false} ExpiryUnobservable(p: Params, up: Upstream, tr: seq<State>, acts: seq<Action>)
    returns (zr: seq<State>)
    requires p.ttl + p.stale <= EXPIRY
    requires Run(Expiring(p), up, tr, acts) && tr[0] == Init()
    ensures Run(Eternal(p), up, zr, acts) && zr[0] == Init()
    ensures forall i :: 0 <= i < |tr| ==> SameSeen(tr[i], zr[i])
  {
    zr := MatchedRun(p, up, tr, acts, |acts|);
    forall i | 0 <= i < |tr| ensures SameSeen(tr[i], zr[i]) {
      assert Matched(p, tr[i], zr[i]);
    }
  }

  lemma {:induction false} MatchedRun(p: Params, up: Upstream, tr: seq<State>, acts: seq<Action>, n: nat)
    returns (zr: seq<State>)
    requires p.ttl + p.stale <= EXPIRY && n <= |acts|
    requires Run(Expiring(p), up, tr, acts) && tr[0] == Init()
    ensures Run(Eternal(p), up, zr, acts[..n]) && zr[0] == Init()
    ensures forall i :: 0 <= i <= n ==> Matched(p, tr[i], zr[i])
  {
    if n == 0 {
      zr := [Init()];
    } else {
      hide Next, Enabled, Matched;
      var z := MatchedRun(p, up, tr, acts, n - 1);
      MatchedStep(p, up, tr[n - 1], z[n - 1], acts[n - 1]);
      ExtendRun(Eternal(p), up, z, acts, n - 1);
      zr := z + [Next(Eternal(p), up, z[n - 1], acts[n - 1])];
    }
  }

  lemma EnabledBack(p: Params, s: State, z: State, a: Action)
    requires Matched(p, s, z) && Enabled(z, a)
    ensures Enabled(s, a)
  {
    hide KeyOf, Matching;
    assert forall prefix :: MatchingKeys(s, prefix) == MatchingKeys(z, prefix);
  }

  /** And back: whatever can happen over a store that never expires can happen over the
      expiring one, with the same responses and the same fetches at every point. */
  lemma EternalHasTwin(p: Params, up: Upstream, zr: seq<State>, acts: seq<Action>) returns (tr: seq<State>)
    requires p.ttl + p.stale <= EXPIRY
    requires Run(Eternal(p), up, zr, acts) && zr[0] == Init()
    ensures Run(Expiring(p), up, tr, acts) && tr[0] == Init()
    ensures forall i :: 0 <= i < |zr| ==> SameSeen(tr[i], zr[i])
  {
    tr := MatchedRunBack(p, up, zr, acts, |acts|);
    assert acts[..|acts|] == acts;
    forall i | 0 <= i < |zr| ensures SameSeen(tr[i], zr[i]) {
      assert Matched(p, tr[i], zr[i]);
    }
  }

  lemma {:induction false} MatchedRunBack(p: Params, up: Upstream, zr: seq<State>, acts: seq<Action>, n: nat)
    returns (tr: seq<State>)
    requires p.ttl + p.stale <= EXPIRY && n <= |acts|
    requires Run(Eternal(p), up, zr, acts) && zr[0] == Init()
    ensures Run(Expiring(p), up, tr, acts[..n]) && tr[0] == Init()
    ensures forall i :: 0 <= i <= n ==> Matched(p, tr[i], zr[i])
  {
    if n == 0 {
      tr := [Init()];
    } else {
      hide Next, Enabled, Matched;
      var u := MatchedRunBack(p, up, zr, acts, n - 1);
      EnabledBack(p, u[n - 1], zr[n - 1], acts[n - 1]);
      MatchedStep(p, up, u[n - 1], zr[n - 1], acts[n - 1]);
      ExtendRun(Expiring(p), up, u, acts, n - 1);
      tr := u + [Next(Expiring(p), up, u[n - 1], acts[n - 1])];
    }
  }

  // ------------------------------------------------------------ and only up to there

  const PAGE := Single("a")

  /** A fetch at time 0, a look just before the entry is too old, six hours later. */
  const LATE_LOOK := [Read(1, PAGE), Decide(1, 9), Ask(1), Stamp(1), Write(1, true), Tick(EXPIRY),
                      Read(2, PAGE), Decide(2, 10)]

  function LateState(p: Params, up: Upstream, n: nat): State {
    var k := KeyOf(PAGE);
    var e := Envelope(up(PAGE, 0), 0, 0, PAGE);
    var first := Task(PAGE, false, 0,
                      if n == 1 then Got(None) else if n == 2 then Fetching
                      else if n == 3 then Fetched(e.data, 0) else if n == 4 then Stamped(e)
                      else Served(e.data, 0, PAGE, 0));
    State(if n < 6 then 0 else EXPIRY, if n < 5 then map[] else map[k := Stored(e, 0)],
          if n == 0 then map[] else if n < 7 then map[1 := first]
          else map[1 := first, 2 := Task(PAGE, false, EXPIRY, Got(if p.expiring then None else Some(e)))],
          map[], if n < 2 then map[] else map[k := [0]])
  }

  lemma LateSteps(p: Params, up: Upstream, n: nat)
    requires n < 7
    ensures Enabled(LateState(p, up, n), LATE_LOOK[n])
    ensures Next(p, up, LateState(p, up, n), LATE_LOOK[n]) == LateState(p, up, n + 1)
  {
    hide KeyOf;
    var s, t := LateState(p, up, n), LateState(p, up, n + 1);
    var next := Next(p, up, s, LATE_LOOK[n]);
    assert next.tasks == t.tasks;
    assert next.store == t.store;
    if n == 1 { assert next.launches[KeyOf(PAGE)] == [0]; }
    assert next.launches == t.launches;
  }

  function LateTrace(p: Params, up: Upstream): seq<State> {
    seq(8, n requires 0 <= n < 8 => LateState(p, up, n))
  }

  lemma LateRun(p: Params, up: Upstream)
    ensures Run(p, up, LateTrace(p, up), LATE_LOOK[..7]) && LateTrace(p, up)[0] == Init()
  {
    var tr := LateTrace(p, up);
    forall i | 0 <= i < 7
      ensures Enabled(tr[i], LATE_LOOK[i]) && tr[i + 1] == Next(p, up, tr[i], LATE_LOOK[i])
    {
      hide Next, Enabled, LateState;
      LateSteps(p, up, i);
    }
  }

  /** With a longer grace window the expiry shows: the same read is answered from the
      eternal store and waits for a fetch over the expiring one. */
  lemma ExpiryObservable(p: Params, up: Upstream)
    requires p.ttl + p.stale > EXPIRY
    ensures var u, v := LateTrace(Expiring(p), up), LateTrace(Eternal(p), up);
            && Run(Expiring(p), up, u, LATE_LOOK[..7]) && Run(Eternal(p), up, v, LATE_LOOK[..7])
            && u[0] == Init() && v[0] == Init()
            && Enabled(u[7], LATE_LOOK[7]) && Enabled(v[7], LATE_LOOK[7])
            && !SameSeen(Next(Expiring(p), up, u[7], LATE_LOOK[7]), Next(Eternal(p), up, v[7], LATE_LOOK[7]))
  {
    LateRun(Expiring(p), up);
    LateRun(Eternal(p), up);
    hide KeyOf;
    assert Next(Expiring(p), up, LateTrace(Expiring(p), up)[7], LATE_LOOK[7]).tasks[2].phase == Fetching;
    assert Next(Eternal(p), up, LateTrace(Eternal(p), up)[7], LATE_LOOK[7]).tasks[2].phase.Served?;
  }

  // ------------------------------------------------------------------------- outage

  /** No fetch of k comes back any more, and k is not deleted. */
  ghost predicate Outage(k: string, s: State, a: Action)
    requires Enabled(s, a)
  {
    && (a.Stamp? ==> KeyOf(s.tasks[a.t].args) != k)
    && (a.SweepDelete? ==> k !in s.sweeps[a.i].found)
  }

  /** No earlier fetch of k is still to be written. */
  ghost predicate Drained(k: string, s: State) {
    forall t :: t in s.tasks && KeyOf(s.tasks[t].args) == k ==> !s.tasks[t].phase.Stamped?
  }

  /** A caller's read of k that began in the outage, while e is young enough to serve. */
  predicate Untroubled(e: Envelope, t: Task) {
    || t.phase == Got(Some(e)) || t.phase == Unread
    || (t.phase.Served? && t.phase.data == e.data && t.phase.readAt == e.readAt)
  }

  ghost predicate Coping(p: Params, e: Stored, before: set<nat>, k: string, s: State) {
    && k in s.store && s.store[k] == e && Drained(k, s)
    && (s.now < e.env.cachedAt + p.ttl + p.stale ==>
          forall t :: t in s.tasks && t !in before && KeyOf(s.tasks[t].args) == k && !s.tasks[t].background ==>
            Untroubled(e.env, s.tasks[t]))
  }

  lemma CopingEntry(p: Params, up: Upstream, e: Stored, before: set<nat>, k: string, s: State, a: Action)
    requires Coping(p, e, before, k, s) && Enabled(s, a) && Outage(k, s, a)
    ensures k in Next(p, up, s, a).store && Next(p, up, s, a).store[k] == e && Drained(k, Next(p, up, s, a))
  {
    hide KeyOf, Next;
    EntryStep(p, up, s, a, k);
    var n := Next(p, up, s, a);
    forall t | t in n.tasks && KeyOf(n.tasks[t].args) == k ensures !n.tasks[t].phase.Stamped? {
      TaskStep(p, up, s, a, t);
    }
  }

  lemma CopingTask(p: Params, up: Upstream, e: Stored, before: set<nat>, k: string, s: State, a: Action, t: nat)
    requires p.ttl + p.stale <= EXPIRY && e.env.cachedAt <= e.setAt
    requires Coping(p, e, before, k, s) && Enabled(s, a) && Outage(k, s, a)
    requires var n := Next(p, up, s, a);
             && n.now < e.env.cachedAt + p.ttl + p.stale && t in n.tasks && t !in before
             && KeyOf(n.tasks[t].args) == k && !n.tasks[t].background
    ensures Untroubled(e.env, Next(p, up, s, a).tasks[t])
  {
    hide KeyOf, Next;
    ClockStep(p, up, s, a);
    TaskStep(p, up, s, a, t);
  }

  lemma CopingStep(p: Params, up: Upstream, e: Stored, before: set<nat>, k: string, s: State, a: Action)
    requires p.ttl + p.stale <= EXPIRY && e.env.cachedAt <= e.setAt
    requires Coping(p, e, before, k, s) && Enabled(s, a) && Outage(k, s, a)
    ensures Coping(p, e, before, k, Next(p, up, s, a))
  {
    hide KeyOf, Next, Enabled, Outage, Drained, Untroubled;
    var n := Next(p, up, s, a);
    CopingEntry(p, up, e, before, k, s, a);
    if n.now < e.env.cachedAt + p.ttl + p.stale {
      forall t | t in n.tasks && t !in before && KeyOf(n.tasks[t].args) == k && !n.tasks[t].background
        ensures Untroubled(e.env, n.tasks[t])
      {
        CopingTask(p, up, e, before, k, s, a, t);
      }
    }
  }

  lemma {:induction false} RunCoping(p: Params, up: Upstream, k: string,
                                     tr: seq<State>, acts: seq<Action>, i: nat)
    requires Run(p, up, tr, acts) && i < |tr| && p.ttl + p.stale <= EXPIRY
    requires k in tr[0].store && tr[0].store[k].env.cachedAt <= tr[0].store[k].setAt && Drained(k, tr[0])
    requires forall j :: 0 <= j < |acts| ==> Outage(k, tr[j], acts[j])
    ensures Coping(p, tr[0].store[k], tr[0].tasks.Keys, k, tr[i])
  {
    if i > 0 {
      hide Coping, Next, Enabled, Outage;
      RunCoping(p, up, k, tr, acts, i - 1);
      CopingStep(p, up, tr[0].store[k], tr[0].tasks.Keys, k, tr[i - 1], acts[i - 1]);
    }
  }

  /** If from some point on every fetch of k fails and nothing deletes k, the last good
      value stays, and as long as it is younger than ttl + stale every later read is
      served it, unless its own GET fails: none waits for the upstream. */
  lemma OutageTolerated(p: Params, up: Upstream, k: string, tr: seq<State>, acts: seq<Action>, i: nat, t: nat)
    requires Run(p, up, tr, acts) && i < |tr| && p.ttl + p.stale <= EXPIRY
    requires k in tr[0].store && tr[0].store[k].env.cachedAt <= tr[0].store[k].setAt && Drained(k, tr[0])
    requires forall j :: 0 <= j < |acts| ==> Outage(k, tr[j], acts[j])
    requires t in tr[i].tasks && t !in tr[0].tasks && KeyOf(tr[i].tasks[t].args) == k && !tr[i].tasks[t].background
    ensures var e := tr[0].store[k].env;
            && k in tr[i].store && tr[i].store[k].env == e
            && (tr[i].now < e.cachedAt + p.ttl + p.stale ==>
                  var ph := tr[i].tasks[t].phase;
                  ph == Unread || ph == Got(Some(e)) || (ph.Served? && ph.data == e.data && ph.readAt == e.readAt))
  {
    hide KeyOf, Next, Enabled, Outage, Drained;
    RunCoping(p, up, k, tr, acts, i);
  }
}
