/** The exact condition under which invalidation keeps its promise: old values stay away
    from every later response if and only if, at the moment of the DEL, nothing stored or
    under way can still bring one back. */
module CacheComeback {
  import opened CacheKeys
  import opened Cache
  import opened CacheTruth
  import opened CacheOverlap
  import opened CacheInvalidation

  /** A matching task that was not over before has served something read before t0. */
  ghost predicate ServesOld(prefix: string, t0: nat, past: set<nat>, s: State) {
    exists t :: t in s.tasks && t !in past && s.tasks[t].phase.Served?
                && Matching(prefix, KeyOf(s.tasks[t].args)) && s.tasks[t].phase.readAt < t0
  }

  lemma FreshServesNoneOld(p: Params, prefix: string, t0: nat, past: set<nat>, s: State)
    requires FreshSince(p, prefix, t0, past, s)
    ensures !ServesOld(prefix, t0, past, s)
  {
    hide Matching, KeyOf;
  }

  /** The entry of k is old and would be served. */
  ghost predicate OldStored(p: Params, t0: nat, k: string, s: State) {
    k in s.store && Live(p, s, k) && !Harmless(p, t0, s.now, s.store[k].env) && KeyOf(s.store[k].env.args) == k
  }

  lemma StoredComesBack(p: Params, up: Upstream, prefix: string, t0: nat, past: set<nat>,
                        tr: seq<State>, acts: seq<Action>, k: string, x: nat)
    returns (tr': seq<State>, acts': seq<Action>)
    requires Run(p, up, tr, acts) && OldStored(p, t0, k, tr[|acts|]) && Matching(prefix, k)
    requires x !in tr[|acts|].tasks && x + 1 !in tr[|acts|].tasks && x !in past
    ensures Run(p, up, tr', acts') && tr <= tr' && ServesOld(prefix, t0, past, tr'[|acts'|])
  {
    var s := tr[|acts|];
    hide KeyOf, Matching, Run;
    var a, b := Read(x, s.store[k].env.args), Decide(x, x + 1);
    tr', acts' := Extend(p, up, tr, acts, a);
    tr', acts' := Extend(p, up, tr', acts', b);
    var t := tr'[|acts'|].tasks[x];
    assert t.phase.Served? && t.phase.readAt < t0 && t.args == s.store[k].env.args;
  }

  lemma GotComesBack(p: Params, up: Upstream, prefix: string, t0: nat, past: set<nat>, s: State, t: nat, x: nat)
    returns (tr: seq<State>, acts: seq<Action>)
    requires t in s.tasks && t !in past && Matching(prefix, KeyOf(s.tasks[t].args)) && x !in s.tasks
    requires s.tasks[t].phase.Got? && !FreshTask(p, t0, s.now, s.tasks[t])
    ensures Run(p, up, tr, acts) && tr[0] == s && ServesOld(prefix, t0, past, tr[|acts|])
  {
    hide KeyOf, Matching;
    tr, acts := Extend(p, up, [s], [], Decide(t, x));
    assert tr[1].tasks[t].phase.Served? && tr[1].tasks[t].args == s.tasks[t].args;
  }

  /** A stamped old value is served to its own caller, or stored and served to the next. */
  lemma StampedComesBack(p: Params, up: Upstream, prefix: string, t0: nat, past: set<nat>,
                         tr: seq<State>, acts: seq<Action>, t: nat, x: nat)
    returns (tr': seq<State>, acts': seq<Action>)
    requires Run(p, up, tr, acts)
    requires var s := tr[|acts|];
             && t in s.tasks && t !in past && Matching(prefix, KeyOf(s.tasks[t].args))
             && s.tasks[t].phase.Stamped? && !FreshTask(p, t0, s.now, s.tasks[t])
             && KeyOf(s.tasks[t].phase.env.args) == KeyOf(s.tasks[t].args)
             && x !in s.tasks && x + 1 !in s.tasks && x !in past
    ensures Run(p, up, tr', acts') && tr <= tr' && ServesOld(prefix, t0, past, tr'[|acts'|])
  {
    var s := tr[|acts|];
    hide KeyOf, Matching, Run;
    tr', acts' := Extend(p, up, tr, acts, Write(t, true));
    var u := tr'[|acts'|];
    if s.tasks[t].background {
      assert OldStored(p, t0, KeyOf(s.tasks[t].args), u);
      tr', acts' := StoredComesBack(p, up, prefix, t0, past, tr', acts', KeyOf(s.tasks[t].args), x);
    } else {
      assert u.tasks[t].phase.Served? && u.tasks[t].args == s.tasks[t].args;
    }
  }

  lemma FetchedComesBack(p: Params, up: Upstream, prefix: string, t0: nat, past: set<nat>, s: State, t: nat, x: nat)
    returns (tr: seq<State>, acts: seq<Action>)
    requires p.ttl + p.stale > 0
    requires t in s.tasks && t !in past && Matching(prefix, KeyOf(s.tasks[t].args))
    requires s.tasks[t].phase.Fetched? && !FreshTask(p, t0, s.now, s.tasks[t])
    requires x !in s.tasks && x + 1 !in s.tasks && x !in past
    ensures Run(p, up, tr, acts) && tr[0] == s && ServesOld(prefix, t0, past, tr[|acts|])
  {
    hide KeyOf, Matching, ServesOld;
    tr, acts := Extend(p, up, [s], [], Stamp(t));
    assert tr[1].tasks[t].args == s.tasks[t].args && tr[1].tasks[t].phase.Stamped?;
    tr, acts := StampedComesBack(p, up, prefix, t0, past, tr, acts, t, x);
  }

  /** Whatever is not harmless can be served again. */
  lemma OldComesBack(p: Params, up: Upstream, prefix: string, t0: nat, past: set<nat>, s: State, x: nat)
    returns (tr: seq<State>, acts: seq<Action>)
    requires True(up, s) && p.ttl + p.stale > 0 && t0 <= s.now
    requires forall t :: t in past ==> t in s.tasks && !Underway(s.tasks[t].phase)
    requires x !in s.tasks && x + 1 !in s.tasks
    requires !FreshSince(p, prefix, t0, past, s)
    ensures Run(p, up, tr, acts) && tr[0] == s && ServesOld(prefix, t0, past, tr[|acts|])
  {
    hide KeyOf, Matching, FreshTask, Harmless, Live, Next, Enabled;
    if k :| k in s.store && Matching(prefix, k) && Live(p, s, k) && !Harmless(p, t0, s.now, s.store[k].env) {
      hide ServesOld;
      tr, acts := StoredComesBack(p, up, prefix, t0, past, [s], [], k, x);
    } else {
      var t :| t in s.tasks && t !in past && Matching(prefix, KeyOf(s.tasks[t].args)) &&
               !FreshTask(p, t0, s.now, s.tasks[t]);
      if s.tasks[t].phase.Served? {
        ServedOld(p, prefix, t0, past, s, t);
        tr, acts := [s], [];
      } else {
        hide ServesOld;
        NotFreshPhase(p, t0, s.now, s.tasks[t]);
        if s.tasks[t].phase.Got? {
          tr, acts := GotComesBack(p, up, prefix, t0, past, s, t, x);
        } else if s.tasks[t].phase.Fetched? {
          tr, acts := FetchedComesBack(p, up, prefix, t0, past, s, t, x);
        } else {
          tr, acts := StampedComesBack(p, up, prefix, t0, past, [s], [], t, x);
        }
      }
    }
  }

  lemma NotFreshPhase(p: Params, t0: nat, now: nat, t: Task)
    requires !FreshTask(p, t0, now, t)
    ensures t.phase.Got? || t.phase.Fetched? || t.phase.Stamped? || t.phase.Served?
  {}

  lemma ServedOld(p: Params, prefix: string, t0: nat, past: set<nat>, s: State, t: nat)
    requires t in s.tasks && t !in past && Matching(prefix, KeyOf(s.tasks[t].args))
    requires s.tasks[t].phase.Served? && !FreshTask(p, t0, s.now, s.tasks[t])
    ensures ServesOld(prefix, t0, past, s)
  {
    hide Matching, KeyOf;
  }

  /** No way on from s serves a matching value read before t0. */
  ghost predicate Promised(p: Params, up: Upstream, prefix: string, t0: nat, past: set<nat>, s: State) {
    forall tr, acts :: Run(p, up, tr, acts) && tr[0] == s ==> !ServesOld(prefix, t0, past, tr[|acts|])
  }

  lemma PromiseKept(p: Params, up: Upstream, prefix: string, t0: nat, past: set<nat>, s: State)
    requires FreshSince(p, prefix, t0, past, s)
    ensures Promised(p, up, prefix, t0, past, s)
  {
    hide ServesOld, FreshSince, Next, Enabled;
    forall tr, acts | Run(p, up, tr, acts) && tr[0] == s ensures !ServesOld(prefix, t0, past, tr[|acts|]) {
      RunFresh(p, up, prefix, t0, past, tr, acts, 0, |acts|);
      FreshServesNoneOld(p, prefix, t0, past, tr[|acts|]);
    }
  }

  /** In every reachable state, after a DEL or at any other time: all that will ever be
      served for the prefix was read at t0 or later if and only if FreshSince holds now. */
  lemma FreshExactly(p: Params, up: Upstream, prefix: string, t0: nat, past: set<nat>,
                     tr: seq<State>, acts: seq<Action>, n: nat, x: nat)
    requires Run(p, up, tr, acts) && tr[0] == Init() && n < |tr|
    requires p.ttl + p.stale > 0 && t0 <= tr[n].now
    requires forall t :: t in past ==> t in tr[n].tasks && !Underway(tr[n].tasks[t].phase)
    requires x !in tr[n].tasks && x + 1 !in tr[n].tasks
    ensures Promised(p, up, prefix, t0, past, tr[n]) <==> FreshSince(p, prefix, t0, past, tr[n])
  {
    hide True, FreshSince, ServesOld, Matching, KeyOf, Next, Enabled;
    NothingTrue(up);
    RunTrue(p, up, tr, acts, n);
    if FreshSince(p, prefix, t0, past, tr[n]) {
      PromiseKept(p, up, prefix, t0, past, tr[n]);
    } else {
      var tr', acts' := OldComesBack(p, up, prefix, t0, past, tr[n], x);
      assert !Promised(p, up, prefix, t0, past, tr[n]);
    }
  }
}
