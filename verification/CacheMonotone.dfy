/** Whether successive reads of a key can go back in time: they cannot as long as no SET
    lands on a value read upstream later than its own and nothing is deleted; where one
    does, they do. */
module CacheMonotone {
  import opened CacheKeys
  import opened Cache
  import opened CacheTruth
  import opened CacheFetches
  import opened CacheOverlap

  /** No SET of k replaces a value that was read upstream later, and k is not deleted. */
  ghost predicate Forward(k: string, s: State, a: Action)
    requires Enabled(s, a)
  {
    && (a.Write? && KeyOf(s.tasks[a.t].args) == k && k in s.store ==>
          s.store[k].env.readAt <= s.tasks[a.t].phase.env.readAt)
    && !Deletes(s, a, k)
  }

  /** k is stored with a value read at r or later. */
  predicate Reached(k: string, r: nat, s: State) {
    k in s.store && s.store[k].env.readAt >= r
  }

  // --------------------------------------------- nothing seen is ahead of the store

  predicate BehindTask(k: string, s: State, t: Task) {
    match t.phase
    case Got(raw) => raw.Some? ==> Reached(k, raw.value.readAt, s)
    case Served(_, readAt, _, _) => Reached(k, readAt, s)
    case _ => true
  }

  ghost predicate Behind(k: string, s: State) {
    forall t :: t in s.tasks && KeyOf(s.tasks[t].args) == k ==> BehindTask(k, s, s.tasks[t])
  }

  lemma ReachedStep(p: Params, up: Upstream, k: string, s: State, a: Action)
    requires Enabled(s, a) && Forward(k, s, a)
    ensures k in s.store ==> Reached(k, s.store[k].env.readAt, Next(p, up, s, a))
  {
    hide KeyOf, Next;
    EntryStep(p, up, s, a, k);
  }

  lemma BehindOne(p: Params, up: Upstream, k: string, s: State, a: Action, t: nat)
    requires Behind(k, s) && Enabled(s, a) && Forward(k, s, a)
    requires t in Next(p, up, s, a).tasks && KeyOf(Next(p, up, s, a).tasks[t].args) == k
    ensures BehindTask(k, Next(p, up, s, a), Next(p, up, s, a).tasks[t])
  {
    hide KeyOf, Next;
    ReachedStep(p, up, k, s, a);
    EntryStep(p, up, s, a, k);
    TaskStep(p, up, s, a, t);
  }

  lemma BehindStep(p: Params, up: Upstream, k: string, s: State, a: Action)
    requires Behind(k, s) && Enabled(s, a) && Forward(k, s, a)
    ensures Behind(k, Next(p, up, s, a))
  {
    hide KeyOf, Next, Enabled, Forward, BehindTask;
    var n := Next(p, up, s, a);
    forall t | t in n.tasks && KeyOf(n.tasks[t].args) == k ensures BehindTask(k, n, n.tasks[t]) {
      BehindOne(p, up, k, s, a, t);
    }
  }

  lemma {:induction false} RunBehind(p: Params, up: Upstream, k: string, tr: seq<State>, acts: seq<Action>, i: nat)
    requires Run(p, up, tr, acts) && tr[0] == Init() && i < |tr|
    requires forall j :: 0 <= j < |acts| ==> Forward(k, tr[j], acts[j])
    ensures Behind(k, tr[i])
  {
    hide Next, Enabled, Forward;
    if i > 0 {
      hide Behind;
      RunBehind(p, up, k, tr, acts, i - 1);
      BehindStep(p, up, k, tr[i - 1], acts[i - 1]);
    }
  }

  // ------------------------------------------------- nothing read later is behind it

  predicate AheadTask(r: nat, t: Task) {
    match t.phase
    case Got(raw) => raw.Some? ==> raw.value.readAt >= r
    case Fetched(_, readAt) => readAt >= r
    case Stamped(e) => e.readAt >= r
    case Served(_, readAt, _, _) => readAt >= r
    case _ => true
  }

  /** From a moment on: the store holds r or later, and so does all that a task which was
      not there then has seen or fetched. */
  ghost predicate Ahead(k: string, r: nat, before: set<nat>, s: State) {
    && r <= s.now && Reached(k, r, s)
    && forall t :: t in s.tasks && t !in before && KeyOf(s.tasks[t].args) == k ==> AheadTask(r, s.tasks[t])
  }

  lemma AheadOne(p: Params, up: Upstream, k: string, r: nat, before: set<nat>, s: State, a: Action, t: nat)
    requires Ahead(k, r, before, s) && Enabled(s, a)
    requires t in Next(p, up, s, a).tasks && t !in before && KeyOf(Next(p, up, s, a).tasks[t].args) == k
    ensures AheadTask(r, Next(p, up, s, a).tasks[t])
  {
    hide KeyOf, Next;
    TaskStep(p, up, s, a, t);
  }

  lemma AheadStep(p: Params, up: Upstream, k: string, r: nat, before: set<nat>, s: State, a: Action)
    requires Ahead(k, r, before, s) && Enabled(s, a) && Forward(k, s, a)
    ensures Ahead(k, r, before, Next(p, up, s, a))
  {
    ReachedStep(p, up, k, s, a);
    ClockStep(p, up, s, a);
    hide KeyOf, Next, Enabled, Forward, AheadTask;
    var n := Next(p, up, s, a);
    forall t | t in n.tasks && t !in before && KeyOf(n.tasks[t].args) == k ensures AheadTask(r, n.tasks[t]) {
      AheadOne(p, up, k, r, before, s, a, t);
    }
  }

  lemma {:induction false} RunAhead(p: Params, up: Upstream, k: string, r: nat,
                                    tr: seq<State>, acts: seq<Action>, i: nat, j: nat)
    requires Run(p, up, tr, acts) && i <= j < |tr| && r <= tr[i].now && Reached(k, r, tr[i])
    requires forall x :: 0 <= x < |acts| ==> Forward(k, tr[x], acts[x])
    ensures Ahead(k, r, tr[i].tasks.Keys, tr[j])
  {
    hide Next, Enabled, Forward;
    if i < j {
      hide Ahead;
      RunAhead(p, up, k, r, tr, acts, i, j - 1);
      AheadStep(p, up, k, r, tr[i].tasks.Keys, tr[j - 1], acts[j - 1]);
    }
  }

  // -------------------------------------------------------------------- main results

  /** A read that starts after another one of the same key was served is served something
      read upstream no earlier. */
  lemma ReadsMonotone(p: Params, up: Upstream, tr: seq<State>, acts: seq<Action>, i: nat, j: nat, t: nat, u: nat)
    requires Run(p, up, tr, acts) && tr[0] == Init() && i <= j < |tr|
    requires t in tr[i].tasks && tr[i].tasks[t].phase.Served?
    requires u !in tr[i].tasks && u in tr[j].tasks && tr[j].tasks[u].phase.Served?
    requires KeyOf(tr[j].tasks[u].args) == KeyOf(tr[i].tasks[t].args)
    requires forall x :: 0 <= x < |acts| ==> Forward(KeyOf(tr[i].tasks[t].args), tr[x], acts[x])
    ensures tr[i].tasks[t].phase.readAt <= tr[j].tasks[u].phase.readAt
  {
    hide KeyOf, Next, Enabled, Forward;
    var k, r := KeyOf(tr[i].tasks[t].args), tr[i].tasks[t].phase.readAt;
    RunBehind(p, up, k, tr, acts, i);
    NothingTrue(up);
    RunTrue(p, up, tr, acts, i);
    assert TaskTrue(up, tr[i].now, tr[i].tasks[t]);
    RunAhead(p, up, k, r, tr, acts, i, j);
  }

  /** A SET that lands on a value read later than its own, both of them fresh: of two
      successive reads around it the second is served the older value. */
  lemma OlderReadGoesBack(p: Params, up: Upstream, s: State, t: nat, x: nat)
    returns (tr: seq<State>, acts: seq<Action>)
    requires t in s.tasks && s.tasks[t].phase.Stamped? && forall y :: y in s.tasks ==> y < x
    requires KeyOf(s.tasks[t].args) in s.store
    requires Live(p, s, KeyOf(s.tasks[t].args)) && Age(s, s.store[KeyOf(s.tasks[t].args)].env) < p.ttl
    requires Age(s, s.tasks[t].phase.env) < p.ttl
    requires s.tasks[t].phase.env.readAt < s.store[KeyOf(s.tasks[t].args)].env.readAt
    ensures Run(p, up, tr, acts) && tr[0] == s && |acts| == 5 && acts[2] == Write(t, true)
    ensures x in tr[2].tasks && x + 2 !in tr[2].tasks && x + 2 in tr[5].tasks
    ensures tr[2].tasks[x].args == s.tasks[t].args == tr[5].tasks[x + 2].args
    ensures tr[2].tasks[x].phase.Served? && tr[5].tasks[x + 2].phase.Served?
    ensures tr[5].tasks[x + 2].phase.readAt < tr[2].tasks[x].phase.readAt
  {
    assert Run(p, up, [s], []);
    hide KeyOf, Run;
    var a := s.tasks[t].args;
    tr, acts := ServeHit(p, up, [s], [], a, x);
    var tr1, acts1 := Extend(p, up, tr, acts, Write(t, true));
    tr, acts := ServeHit(p, up, tr1, acts1, a, x + 2);
  }

  /** A read of a fresh entry is served it at once. */
  lemma ServeHit(p: Params, up: Upstream, tr: seq<State>, acts: seq<Action>, a: Args, x: nat)
    returns (tr': seq<State>, acts': seq<Action>)
    requires Run(p, up, tr, acts)
    requires var s := tr[|acts|]; x !in s.tasks && x + 1 !in s.tasks && KeyOf(a) in s.store
                                  && Live(p, s, KeyOf(a)) && Age(s, s.store[KeyOf(a)].env) < p.ttl
    ensures Run(p, up, tr', acts') && |acts'| == |acts| + 2 && tr <= tr' && acts <= acts'
    ensures |tr| == |acts| + 1 && |tr'| == |acts'| + 1
    ensures var s, u := tr[|acts|], tr'[|acts'|];
            var e := s.store[KeyOf(a)].env;
            && u == s.(tasks := s.tasks[x := Task(a, false, s.now, Served(e.data, e.readAt, e.args, s.now))])
  {
    var s := tr[|acts|];
    hide KeyOf, Run;
    tr', acts' := Extend(p, up, tr, acts, Read(x, a));
    tr', acts' := Extend(p, up, tr', acts', Decide(x, x + 1));
  }
}
