/** What a cached response can be: an answer the upstream gave for the same key, and how
    old it may be, whatever overlaps, fails, expires or is invalidated. */
module CacheTruth {
  import opened Wrappers
  import opened CacheKeys
  import opened Cache

  // ---------------------------------------------------- responses are upstream answers

  ghost predicate EnvTrue(up: Upstream, now: nat, k: string, e: Envelope) {
    && KeyOf(e.args) == k && e.data == up(e.args, e.readAt)
    && e.readAt <= e.cachedAt <= now
  }

  ghost predicate TaskTrue(up: Upstream, now: nat, t: Task) {
    match t.phase
    case Got(raw) => raw.Some? ==> EnvTrue(up, now, KeyOf(t.args), raw.value)
    case Fetched(data, readAt) => data == up(t.args, readAt) && readAt <= now
    case Stamped(e) => EnvTrue(up, now, KeyOf(t.args), e)
    case Served(data, readAt, source, at) =>
      data == up(source, readAt) && KeyOf(source) == KeyOf(t.args) && readAt <= at <= now
    case _ => true
  }

  ghost predicate StoreTrue(up: Upstream, s: State) {
    forall k :: k in s.store ==>
      EnvTrue(up, s.now, k, s.store[k].env) && s.store[k].env.cachedAt <= s.store[k].setAt <= s.now
  }

  ghost predicate TasksTrue(up: Upstream, s: State) {
    forall t :: t in s.tasks ==> TaskTrue(up, s.now, s.tasks[t]) && s.tasks[t].began <= s.now
  }

  ghost predicate True(up: Upstream, s: State) {
    StoreTrue(up, s) && TasksTrue(up, s)
  }

  lemma StoreTrueStep(p: Params, up: Upstream, s: State, a: Action)
    requires True(up, s) && Enabled(s, a)
    ensures StoreTrue(up, Next(p, up, s, a))
  {
    hide KeyOf, Next;
    var n := Next(p, up, s, a);
    ClockStep(p, up, s, a);
    forall k | k in n.store
      ensures EnvTrue(up, n.now, k, n.store[k].env)
      ensures n.store[k].env.cachedAt <= n.store[k].setAt <= n.now
    {
      EntryStep(p, up, s, a, k);
    }
  }

  lemma TasksTrueStep(p: Params, up: Upstream, s: State, a: Action)
    requires True(up, s) && Enabled(s, a)
    ensures TasksTrue(up, Next(p, up, s, a))
  {
    hide KeyOf, TaskTrue, Next, Enabled;
    var n := Next(p, up, s, a);
    forall t | t in n.tasks ensures TaskTrue(up, n.now, n.tasks[t]) && n.tasks[t].began <= n.now {
      TaskTrueStep(p, up, s, a, t);
    }
  }

  lemma TaskTrueStep(p: Params, up: Upstream, s: State, a: Action, t: nat)
    requires True(up, s) && Enabled(s, a) && t in Next(p, up, s, a).tasks
    ensures var n := Next(p, up, s, a); TaskTrue(up, n.now, n.tasks[t]) && n.tasks[t].began <= n.now
  {
    hide KeyOf, Next;
    TaskStep(p, up, s, a, t);
    ClockStep(p, up, s, a);
  }

  lemma TrueStep(p: Params, up: Upstream, s: State, a: Action)
    requires True(up, s) && Enabled(s, a)
    ensures True(up, Next(p, up, s, a))
  {
    hide StoreTrue, TasksTrue, Next, Enabled;
    StoreTrueStep(p, up, s, a);
    TasksTrueStep(p, up, s, a);
  }

  lemma NothingTrue(up: Upstream)
    ensures True(up, Init())
  {}

  lemma {:induction false} RunTrue(p: Params, up: Upstream, tr: seq<State>, acts: seq<Action>, i: nat)
    requires Run(p, up, tr, acts) && True(up, tr[0]) && i < |tr|
    ensures True(up, tr[i])
  {
    if i > 0 {
      hide True, Next, Enabled;
      RunTrue(p, up, tr, acts, i - 1);
      TrueStep(p, up, tr[i - 1], acts[i - 1]);
    }
  }

  /** Arguments whose key no other arguments share. */
  predicate OwnKey(a: Args) {
    a.Listing? ==> a.after.Some? && a.after.value != "start"
  }

  /** A response for given arguments is what the fetcher returned for those arguments at
      some moment; only no cursor and the cursor 'start' can stand in for each other. */
  lemma Transparency(p: Params, up: Upstream, tr: seq<State>, acts: seq<Action>, i: nat, t: nat)
    requires Run(p, up, tr, acts) && tr[0] == Init() && i < |tr|
    requires t in tr[i].tasks && tr[i].tasks[t].phase.Served?
    ensures var f, a := tr[i].tasks[t].phase, tr[i].tasks[t].args;
            && f.readAt <= f.at && f.data == up(f.source, f.readAt)
            && Canonical(f.source) == Canonical(a)
            && (OwnKey(a) ==> f.source == a)
  {
    hide KeyOf, Next, Enabled;
    RunTrue(p, up, tr, acts, i);
    KeysDetermineArgs(tr[i].tasks[t].phase.source, tr[i].tasks[t].args);
  }

  // --------------------------------------------------------------- the staleness bound

  /** Every fetched value reaches the cache, and its waiting caller, within d of the moment
      it was read upstream. */
  ghost predicate Prompt(d: nat, s: State) {
    forall t :: t in s.tasks ==>
      match s.tasks[t].phase
      case Fetched(_, readAt) => s.now <= readAt + d
      case Stamped(e) => !s.tasks[t].background ==> s.now <= e.readAt + d
      case _ => true
  }

  ghost predicate TaskTimed(p: Params, d: nat, t: Task) {
    match t.phase
    case Got(raw) => raw.Some? ==> raw.value.cachedAt <= raw.value.readAt + d
    case Stamped(e) => e.cachedAt <= e.readAt + d
    case Served(_, readAt, _, at) => at < readAt + p.ttl + p.stale + d
    case _ => true
  }

  ghost predicate Timed(p: Params, d: nat, s: State) {
    && (forall k :: k in s.store ==> s.store[k].env.cachedAt <= s.store[k].env.readAt + d)
    && (forall t :: t in s.tasks ==> TaskTimed(p, d, s.tasks[t]))
  }

  lemma EntryTimed(p: Params, up: Upstream, d: nat, s: State, a: Action, k: string)
    requires Timed(p, d, s) && Enabled(s, a) && k in Next(p, up, s, a).store
    ensures Next(p, up, s, a).store[k].env.cachedAt <= Next(p, up, s, a).store[k].env.readAt + d
  {
    hide KeyOf, Next;
    EntryStep(p, up, s, a, k);
    if a.Write? { assert TaskTimed(p, d, s.tasks[a.t]); }
  }

  lemma TaskTimedStep(p: Params, up: Upstream, d: nat, s: State, a: Action, t: nat)
    requires Timed(p, d, s) && Prompt(d, s) && Enabled(s, a) && p.ttl + p.stale > 0
    requires t in Next(p, up, s, a).tasks
    ensures TaskTimed(p, d, Next(p, up, s, a).tasks[t])
  {
    hide KeyOf, Next;
    TaskStep(p, up, s, a, t);
  }

  lemma TimedStep(p: Params, up: Upstream, d: nat, s: State, a: Action)
    requires Timed(p, d, s) && Prompt(d, s) && Enabled(s, a) && p.ttl + p.stale > 0
    ensures Timed(p, d, Next(p, up, s, a))
  {
    hide Next, Enabled, Prompt, TaskTimed;
    var n := Next(p, up, s, a);
    forall k | k in n.store ensures n.store[k].env.cachedAt <= n.store[k].env.readAt + d {
      EntryTimed(p, up, d, s, a, k);
    }
    forall t | t in n.tasks ensures TaskTimed(p, d, n.tasks[t]) { TaskTimedStep(p, up, d, s, a, t); }
  }

  lemma {:induction false} RunTimed(p: Params, up: Upstream, d: nat,
                                       tr: seq<State>, acts: seq<Action>, i: nat)
    requires Run(p, up, tr, acts) && tr[0] == Init() && p.ttl + p.stale > 0
    requires forall j :: 0 <= j < |tr| ==> Prompt(d, tr[j])
    requires i < |tr|
    ensures Timed(p, d, tr[i])
  {
    if i > 0 {
      hide Timed, Next, Enabled, Prompt;
      RunTimed(p, up, d, tr, acts, i - 1);
      TimedStep(p, up, d, tr[i - 1], acts[i - 1]);
    }
  }

  /** Whatever is served at a moment was the upstream's answer at some moment less than
      ttl + stale + d before. */
  lemma StalenessBound(p: Params, up: Upstream, d: nat,
                          tr: seq<State>, acts: seq<Action>, i: nat, t: nat)
    requires Run(p, up, tr, acts) && tr[0] == Init() && p.ttl + p.stale > 0
    requires forall j :: 0 <= j < |tr| ==> Prompt(d, tr[j])
    requires i < |tr| && t in tr[i].tasks && tr[i].tasks[t].phase.Served?
    ensures var f := tr[i].tasks[t].phase;
            exists u: nat :: u <= f.at < u + p.ttl + p.stale + d && f.data == up(f.source, u)
  {
    hide KeyOf, Next, Enabled, Prompt;
    RunTrue(p, up, tr, acts, i);
    RunTimed(p, up, d, tr, acts, i);
    var f := tr[i].tasks[t].phase;
    assert f.readAt <= f.at < f.readAt + p.ttl + p.stale + d && f.data == up(f.source, f.readAt);
  }

  // ------------------------------------------------ the one collision of two keys

  const NO_CURSOR := Listing(20, None)
  const START_CURSOR := Listing(20, Some("start"))

  const COLLISION := [Read(1, NO_CURSOR), Decide(1, 9), Ask(1), Stamp(1), Write(1, true),
                      Read(2, START_CURSOR), Decide(2, 9)]

  lemma SharedKey()
    ensures KeyOf(NO_CURSOR) == KeyOf(START_CURSOR)
  {
    KeysDetermineArgs(NO_CURSOR, START_CURSOR);
  }

  function CollisionState(up: Upstream, n: nat): State {
    var k := KeyOf(NO_CURSOR);
    var e := Envelope(up(NO_CURSOR, 0), 0, 0, NO_CURSOR);
    var served := Served(e.data, 0, NO_CURSOR, 0);
    var first := Task(NO_CURSOR, false, 0,
                      if n == 1 then Got(None) else if n == 2 then Fetching
                      else if n == 3 then Fetched(e.data, 0) else if n == 4 then Stamped(e) else served);
    var second := Task(START_CURSOR, false, 0, if n == 6 then Got(Some(e)) else served);
    State(0, if n < 5 then map[] else map[k := Stored(e, 0)],
          if n == 0 then map[] else if n < 6 then map[1 := first] else map[1 := first, 2 := second],
          map[], if n < 2 then map[] else map[k := [0]])
  }

  lemma CollisionSteps(p: Params, up: Upstream, n: nat)
    requires n < 7 && p.ttl > 0
    ensures Enabled(CollisionState(up, n), COLLISION[n])
    ensures Next(p, up, CollisionState(up, n), COLLISION[n]) == CollisionState(up, n + 1)
  {
    hide KeyOf;
    SharedKey();
    var s, t := CollisionState(up, n), CollisionState(up, n + 1);
    var next := Next(p, up, s, COLLISION[n]);
    assert next.tasks == t.tasks;
    assert next.store == t.store;
    if n == 1 { assert next.launches[KeyOf(NO_CURSOR)] == [0]; }
    assert next.launches == t.launches;
  }

  /** After a read without a cursor, a read with the cursor 'start' is served that page,
      whatever the upstream would have said to 'start'. */
  lemma StartCursorCollides(p: Params, up: Upstream) returns (tr: seq<State>)
    requires p.ttl > 0
    ensures Run(p, up, tr, COLLISION) && tr[0] == Init()
    ensures 2 in tr[7].tasks && tr[7].tasks[2].args == START_CURSOR
    ensures tr[7].tasks[2].phase == Served(up(NO_CURSOR, 0), 0, NO_CURSOR, 0)
  {
    tr := seq(8, n requires 0 <= n < 8 => CollisionState(up, n));
    forall i | 0 <= i < |COLLISION|
      ensures Enabled(tr[i], COLLISION[i]) && tr[i + 1] == Next(p, up, tr[i], COLLISION[i])
    {
      hide Next, Enabled, CollisionState;
      CollisionSteps(p, up, i);
    }
  }
}
