/** Many transactions at once over one pool (src/config/db.ts): their statements interleave
    in any way, each on the session it holds. */
module TransactionRuns {
  import opened Wrappers
  import opened Transaction

  /** Where a call of withTransaction stands: `Writing(n)` has n writes behind it. */
  datatype Stage = Starting | Writing(n: nat) | Failing | Released

  datatype Call = Call(plan: Plan, session: nat, stage: Stage)

  /** History variables: `landed` lists the calls whose writes have become permanent, in
      that order; `left` has, by session, the call that is over and left its writes open
      there. */
  datatype State = State(db: Db, free: set<nat>, calls: map<nat, Call>, landed: seq<nat>, left: map<nat, nat>)

  datatype Action = Take(r: nat, c: nat, plan: Plan) | Go(call: nat)

  ghost function Start(sessions: set<nat>): State {
    State(Db([], map c | c in sessions :: []), sessions, map[], [], map[])
  }

  predicate Enabled(s: State, a: Action) {
    match a
    case Take(r, c, _) => r !in s.calls && c in s.free
    case Go(r) => r in s.calls && !s.calls[r].stage.Released? && s.calls[r].session in s.db.open
  }

  function Move(s: State, r: nat, db: Db, stage: Stage): State
    requires r in s.calls
  {
    var call := s.calls[r];
    s.(db := db, free := if stage.Released? then s.free + {call.session} else s.free,
       calls := s.calls[r := call.(stage := stage)])
  }

  /** The next command of call r. */
  function Gone(s: State, r: nat): State
    requires Enabled(s, Go(r))
  {
    var call := s.calls[r];
    var p, c := call.plan, call.session;
    match call.stage
    case Starting =>
      var t := Move(s, r, BeginEffect(s.db, c, p.begin), if p.begin then Writing(0) else Failing);
      if p.begin && c in s.left then t.(landed := s.landed + [s.left[c]], left := s.left - {c}) else t
    case Writing(n) =>
      if n < |p.changes| then Move(s, r, WriteEffect(s.db, c, p.changes[n]), Writing(n + 1))
      else if !p.body then Move(s, r, s.db, Failing)
      else
        var t := Move(s, r, CommitEffect(s.db, c, p.commit), if p.commit.Done? then Released else Failing);
        if p.commit.NotApplied? then t else t.(landed := s.landed + [r])
    case Failing =>
      var t := Move(s, r, RollbackEffect(s.db, c, p.rollback), Released);
      if LeavesOpen(p) then t.(left := s.left[c := r])
      else if p.rollback.StillOpen? then t
      else t.(left := s.left - {c})
    case Released => s
  }

  function Next(s: State, a: Action): State
    requires Enabled(s, a)
  {
    match a
    case Take(r, c, p) => s.(free := s.free - {c}, calls := s.calls[r := Call(p, c, Starting)])
    case Go(r) => Gone(s, r)
  }

  ghost predicate Run(sessions: set<nat>, tr: seq<State>, acts: seq<Action>) {
    && |tr| == |acts| + 1 && tr[0] == Start(sessions)
    && (forall i :: 0 <= i < |acts| ==> Enabled(tr[i], acts[i]) && tr[i + 1] == Next(tr[i], acts[i]))
  }

  // ---------------------------------------------------------------------- invariants

  /** What is open on a session between transactions. */
  ghost predicate Remains(s: State, c: nat)
    requires c in s.db.open
  {
    if c in s.left then s.left[c] in s.calls && s.db.open[c] == s.calls[s.left[c]].plan.changes
    else s.db.open[c] == []
  }

  /** What a call has in its session and in the list of landed calls. */
  ghost predicate CallOk(s: State, r: nat)
    requires r in s.calls
  {
    var call := s.calls[r];
    var p, c := call.plan, call.session;
    && (!call.stage.Released? ==> c in s.db.open && c !in s.free)
    && match call.stage
       case Starting => Remains(s, c) && r !in s.landed
       case Writing(n) =>
         n <= |p.changes| && p.begin && c !in s.left && s.db.open[c] == p.changes[..n] && r !in s.landed
       case Failing =>
         && (r in s.landed <==> Lands(p)) && !Succeeds(p)
         && (if p.begin then c !in s.left && s.db.open[c] == (if Lands(p) then [] else p.changes)
             else Remains(s, c))
       case Released =>
         && (Lands(p) ==> r in s.landed)
         && (r in s.landed ==> Lands(p) || LeavesOpen(p))
  }

  ghost predicate SessionsOk(s: State) {
    && s.free <= s.db.open.Keys
    && (forall c :: c in s.free ==> Remains(s, c))
    && (forall q, r :: q in s.calls && r in s.calls && q != r
                       && !s.calls[q].stage.Released? && !s.calls[r].stage.Released? ==>
          s.calls[q].session != s.calls[r].session)
    && (forall c :: c in s.db.open && c !in s.free ==>
          exists r :: r in s.calls && s.calls[r].session == c && !s.calls[r].stage.Released?)
  }

  ghost predicate LeftOk(s: State) {
    forall c :: c in s.left ==>
      && c in s.db.open && s.left[c] in s.calls && s.left[c] !in s.landed
      && s.calls[s.left[c]].stage.Released? && s.calls[s.left[c]].session == c && LeavesOpen(s.calls[s.left[c]].plan)
  }

  /** The writes of the given calls, call by call. */
  function WritesOf(calls: map<nat, Call>, ids: seq<nat>): seq<Change>
    requires forall r :: r in ids ==> r in calls
  {
    if ids == [] then [] else WritesOf(calls, ids[..|ids| - 1]) + calls[ids[|ids| - 1]].plan.changes
  }

  ghost predicate LandedOk(s: State) {
    && (forall r :: r in s.landed ==> r in s.calls)
    && (forall i, j :: 0 <= i < j < |s.landed| ==> s.landed[i] != s.landed[j])
    && s.db.committed == WritesOf(s.calls, s.landed)
  }

  ghost predicate Inv(s: State) {
    (forall r :: r in s.calls ==> CallOk(s, r)) && SessionsOk(s) && LeftOk(s) && LandedOk(s)
  }

  lemma {:induction false} WritesSame(calls: map<nat, Call>, calls': map<nat, Call>, ids: seq<nat>)
    requires forall r :: r in ids ==> r in calls && r in calls' && calls'[r].plan == calls[r].plan
    ensures WritesOf(calls', ids) == WritesOf(calls, ids)
  {
    if ids != [] { WritesSame(calls, calls', ids[..|ids| - 1]); }
  }

  /** The call that the step of call r lands, if any: its own, or the one that left its
      writes on its session. */
  function Landing(s: State, r: nat): Option<nat>
    requires Enabled(s, Go(r))
  {
    var call := s.calls[r];
    if call.stage.Starting? && call.plan.begin && call.session in s.left then Some(s.left[call.session])
    else if call.stage == Writing(|call.plan.changes|) && Lands(call.plan) then Some(r)
    else None
  }

  /** What the step of call r can touch: its record, its session, and the end of the list
      of landed calls. */
  ghost predicate Frame(s: State, t: State, r: nat) {
    && r in s.calls && r in t.calls && t.calls == s.calls[r := t.calls[r]]
    && t.calls[r].plan == s.calls[r].plan && t.calls[r].session == s.calls[r].session
    && t.free == (if t.calls[r].stage.Released? then s.free + {s.calls[r].session} else s.free)
    && t.db.open.Keys == s.db.open.Keys
    && (forall c :: c in s.db.open && c != s.calls[r].session ==> t.db.open[c] == s.db.open[c])
    && (forall c :: c != s.calls[r].session ==>
          (c in t.left <==> c in s.left) && (c in s.left ==> t.left[c] == s.left[c]))
  }

  lemma GoneFrame(s: State, r: nat)
    requires r in s.calls && CallOk(s, r) && Enabled(s, Go(r))
    ensures Frame(s, Gone(s, r), r)
    ensures Gone(s, r).landed == match Landing(s, r) case None => s.landed case Some(q) => s.landed + [q]
  {}

  lemma OtherRemains(s: State, t: State, q: nat, c: nat)
    requires Frame(s, t, q) && c in s.db.open && c != s.calls[q].session && Remains(s, c)
    ensures Remains(t, c)
  {}

  /** The step of a call leaves the others, and their sessions, alone, but that it may land
      one that is over. */
  lemma OtherCall(s: State, t: State, q: nat, r: nat, l: Option<nat>)
    requires Frame(s, t, q) && q != r && r in s.calls && CallOk(s, r)
    requires !s.calls[r].stage.Released? ==> s.calls[q].session != s.calls[r].session
    requires t.landed == match l case None => s.landed case Some(x) => s.landed + [x]
    requires l == Some(r) ==> s.calls[r].stage.Released? && LeavesOpen(s.calls[r].plan)
    ensures CallOk(t, r)
  {
    if s.calls[r].stage.Starting? || s.calls[r].stage.Failing? {
      if Remains(s, s.calls[r].session) { OtherRemains(s, t, q, s.calls[r].session); }
    }
  }

  lemma TakenCall(s: State, a: Action, r: nat)
    requires SessionsOk(s) && LandedOk(s) && LeftOk(s) && Enabled(s, a) && a.Take? && r in Next(s, a).calls
    requires r in s.calls ==> CallOk(s, r)
    ensures CallOk(Next(s, a), r)
  {
    hide WritesOf;
  }

  lemma OwnCall(s: State, r: nat)
    requires r in s.calls && CallOk(s, r) && LeftOk(s) && Enabled(s, Go(r))
    ensures CallOk(Gone(s, r), r)
  {
    var call := s.calls[r];
    var t := Gone(s, r);
    match call.stage {
      case Starting =>
      case Writing(n) =>
        if n < |call.plan.changes| {
          assert call.plan.changes[..n + 1] == call.plan.changes[..n] + [call.plan.changes[n]];
        } else {
          assert call.plan.changes[..n] == call.plan.changes;
          if call.plan.body && !call.plan.commit.NotApplied? { assert t.landed == s.landed + [r]; }
        }
      case Failing =>
    }
  }

  lemma CallsStep(s: State, a: Action, r: nat)
    requires Inv(s) && Enabled(s, a) && r in Next(s, a).calls
    ensures CallOk(Next(s, a), r)
  {
    hide WritesOf, CallOk, LandedOk, Gone;
    if a.Take? {
      TakenCall(s, a, r);
    } else {
      GoneFrame(s, a.call);
      if r == a.call { OwnCall(s, r); } else { OtherCall(s, Gone(s, a.call), a.call, r, Landing(s, a.call)); }
    }
  }

  lemma HeldNotFree(s: State, r: nat)
    requires r in s.calls && CallOk(s, r) && !s.calls[r].stage.Released?
    ensures s.calls[r].session !in s.free
  {}

  /** What a call leaves on the session it gives back. */
  lemma ReleasedRemains(s: State, r: nat)
    requires r in s.calls && CallOk(s, r) && LeftOk(s) && Enabled(s, Go(r)) && Gone(s, r).calls[r].stage.Released?
    ensures s.calls[r].session in Gone(s, r).db.open && Remains(Gone(s, r), s.calls[r].session)
  {
    var p := s.calls[r].plan;
    assert p.changes[..|p.changes|] == p.changes;
  }

  lemma SessionsStep(s: State, a: Action)
    requires Inv(s) && Enabled(s, a)
    ensures SessionsOk(Next(s, a)) && Next(s, a).db.open.Keys == s.db.open.Keys
  {
    hide WritesOf, LandedOk, CallOk, Gone, Remains;
    var t := Next(s, a);
    forall r | r in s.calls && !s.calls[r].stage.Released? ensures s.calls[r].session !in s.free { HeldNotFree(s, r); }
    if a.Go? { GoneFrame(s, a.call); }
    forall c | c in t.db.open && c !in t.free
      ensures exists r :: r in t.calls && t.calls[r].session == c && !t.calls[r].stage.Released?
    {
      if a.Take? && a.c == c {
        assert t.calls[a.r].session == c;
      } else {
        var r :| r in s.calls && s.calls[r].session == c && !s.calls[r].stage.Released?;
        assert t.calls[r].session == c;
      }
    }
    forall c | c in t.free ensures c in t.db.open && Remains(t, c) {
      if a.Take? {
        TakenRemains(s, a, c);
      } else if c == s.calls[a.call].session {
        ReleasedRemains(s, a.call);
      } else {
        OtherRemains(s, t, a.call, c);
      }
    }
  }

  lemma TakenRemains(s: State, a: Action, c: nat)
    requires Enabled(s, a) && a.Take? && c in s.db.open && Remains(s, c)
    ensures Remains(Next(s, a), c)
  {}

  lemma LeftStep(s: State, a: Action)
    requires Inv(s) && Enabled(s, a)
    ensures LeftOk(Next(s, a))
  {
    hide WritesOf, SessionsOk;
    var t := Next(s, a);
    if a.Go? {
      var r := a.call;
      assert CallOk(s, r);
      GoneFrame(s, r);
      OwnLeft(s, r);
      hide Gone, CallOk;
      forall c | c in t.left && c != s.calls[r].session
        ensures t.left[c] in t.calls && t.left[c] !in t.landed && t.calls[t.left[c]] == s.calls[s.left[c]]
      {
        assert s.left[c] != r;
      }
    }
  }

  lemma OwnLeft(s: State, r: nat)
    requires Inv(s) && r in s.calls && Enabled(s, Go(r))
    ensures var t, c := Gone(s, r), s.calls[r].session;
            c in t.left ==>
              && c in t.db.open && t.left[c] in t.calls && t.left[c] !in t.landed
              && t.calls[t.left[c]].stage.Released? && t.calls[t.left[c]].session == c
              && LeavesOpen(t.calls[t.left[c]].plan)
  {
    hide WritesOf, SessionsOk;
    assert CallOk(s, r);
  }

  lemma LandedStep(s: State, a: Action)
    requires Inv(s) && Enabled(s, a)
    ensures LandedOk(Next(s, a))
  {
    hide SessionsOk, WritesOf;
    var t := Next(s, a);
    if a.Take? {
      WritesSame(s.calls, t.calls, s.landed);
    } else {
      assert CallOk(s, a.call);
      GoneFrame(s, a.call);
      CommittedStep(s, a.call);
      hide Gone, CallOk;
      WritesSame(s.calls, t.calls, s.landed);
      match Landing(s, a.call) {
        case None =>
        case Some(q) => WritesMore(t.calls, s.landed, q);
      }
    }
  }

  lemma WritesMore(calls: map<nat, Call>, ids: seq<nat>, r: nat)
    requires (forall q :: q in ids ==> q in calls) && r in calls
    ensures WritesOf(calls, ids + [r]) == WritesOf(calls, ids) + calls[r].plan.changes
  {
    assert (ids + [r])[..|ids|] == ids;
  }

  lemma CommittedStep(s: State, r: nat)
    requires r in s.calls && CallOk(s, r) && LeftOk(s) && Enabled(s, Go(r))
    ensures var t := Gone(s, r);
            match Landing(s, r)
            case None => t.db.committed == s.db.committed
            case Some(q) => q in s.calls && q !in s.landed && t.db.committed == s.db.committed + s.calls[q].plan.changes
  {
    var p := s.calls[r].plan;
    assert s.db.committed + [] == s.db.committed;
    assert p.changes[..|p.changes|] == p.changes;
  }

  lemma InvStep(s: State, a: Action)
    requires Inv(s) && Enabled(s, a)
    ensures Inv(Next(s, a)) && Next(s, a).db.open.Keys == s.db.open.Keys
  {
    hide CallOk, SessionsOk, LeftOk, LandedOk, Next, Enabled;
    forall r | r in Next(s, a).calls ensures CallOk(Next(s, a), r) { CallsStep(s, a, r); }
    SessionsStep(s, a);
    LeftStep(s, a);
    LandedStep(s, a);
  }

  lemma {:induction false} RunInv(sessions: set<nat>, tr: seq<State>, acts: seq<Action>, i: nat)
    requires Run(sessions, tr, acts) && i < |tr|
    ensures Inv(tr[i]) && tr[i].db.open.Keys == sessions
  {
    hide Inv, Next, Enabled;
    if i == 0 {
      StartInv(sessions);
    } else {
      RunInv(sessions, tr, acts, i - 1);
      InvStep(tr[i - 1], acts[i - 1]);
    }
  }

  lemma StartInv(sessions: set<nat>)
    ensures Inv(Start(sessions)) && Start(sessions).db.open.Keys == sessions
  {}

  // -------------------------------------------------------------------- main results

  /** However the statements of open transactions interleave, the database is at every
      moment the writes of some calls, each whole and once, in the order in which they
      became permanent. They are the calls whose COMMIT took effect and, of the others,
      only such as are over and whose ROLLBACK failed on a living session. */
  lemma OnlyLandedWritesRemain(sessions: set<nat>, tr: seq<State>, acts: seq<Action>, n: nat)
    requires Run(sessions, tr, acts) && n < |tr|
    ensures var s := tr[n];
            && (forall r :: r in s.landed ==> r in s.calls)
            && (forall i, j :: 0 <= i < j < |s.landed| ==> s.landed[i] != s.landed[j])
            && s.db.committed == WritesOf(s.calls, s.landed)
            && (forall r :: r in s.landed && !Lands(s.calls[r].plan) ==>
                  s.calls[r].stage.Released? && LeavesOpen(s.calls[r].plan))
            && (forall r :: r in s.calls && s.calls[r].stage.Released? && !LeavesOpen(s.calls[r].plan) ==>
                  (r in s.landed <==> Lands(s.calls[r].plan)))
  {
    RunInv(sessions, tr, acts, n);
    var s := tr[n];
    hide Run;
    forall r | r in s.landed && !Lands(s.calls[r].plan)
      ensures s.calls[r].stage.Released? && LeavesOpen(s.calls[r].plan)
    {
      assert CallOk(s, r);
    }
    forall r | r in s.calls && s.calls[r].stage.Released? && !LeavesOpen(s.calls[r].plan)
      ensures r in s.landed <==> Lands(s.calls[r].plan)
    {
      assert CallOk(s, r);
    }
  }

  predicate Holds(call: Call, c: nat) { call.session == c && !call.stage.Released? }

  /** No connection is lost or shared: each is free, or held by exactly one call that is not
      over. A free one has nothing open but what a failed ROLLBACK left there. */
  lemma ConnectionsConserved(sessions: set<nat>, tr: seq<State>, acts: seq<Action>, n: nat, c: nat)
    requires Run(sessions, tr, acts) && n < |tr| && c in sessions
    ensures c in tr[n].db.open
    ensures c in tr[n].free && tr[n].db.open[c] != [] ==>
              exists r :: r in tr[n].calls && tr[n].calls[r].session == c && tr[n].calls[r].stage.Released?
                          && LeavesOpen(tr[n].calls[r].plan) && tr[n].db.open[c] == tr[n].calls[r].plan.changes
    ensures c !in tr[n].free <==> exists r :: r in tr[n].calls && Holds(tr[n].calls[r], c)
    ensures forall q, r :: q in tr[n].calls && r in tr[n].calls
                           && Holds(tr[n].calls[q], c) && Holds(tr[n].calls[r], c)
              ==> q == r
  {
    RunInv(sessions, tr, acts, n);
    var s := tr[n];
    hide Run;
    forall r | r in s.calls && Holds(s.calls[r], c) ensures c !in s.free {
      assert CallOk(s, r);
    }
    if c !in s.free {
      var r :| r in s.calls && s.calls[r].session == c && !s.calls[r].stage.Released?;
      assert Holds(s.calls[r], c);
    } else if s.db.open[c] != [] {
      assert Remains(s, c);
      assert s.calls[s.left[c]].session == c;
    }
  }

  // -------------------------------------------------- one call with nothing in between

  /** The state n steps of call r later, or at its end. */
  function Alone(s: State, r: nat, n: nat): State
    decreases n
  {
    if n == 0 || !Enabled(s, Go(r)) then s else Alone(Gone(s, r), r, n - 1)
  }

  lemma {:induction false} AloneJoin(s: State, r: nat, m: nat, n: nat)
    ensures Alone(s, r, m + n) == Alone(Alone(s, r, m), r, n)
    decreases m
  {
    hide Gone;
    if m > 0 && Enabled(s, Go(r)) {
      AloneJoin(Gone(s, r), r, m - 1, n);
    } else if m > 0 {
      assert Alone(s, r, n) == s;
    }
  }

  lemma {:induction false} WritesAlone(s: State, r: nat, k: nat)
    requires Enabled(s, Go(r)) && s.calls[r].stage.Writing? && s.calls[r].stage.n + k == |s.calls[r].plan.changes|
    requires s.db.open[s.calls[r].session] == s.calls[r].plan.changes[..s.calls[r].stage.n]
    ensures var call := s.calls[r];
            Alone(s, r, k) == s.(db := s.db.(open := s.db.open[call.session := call.plan.changes]),
                                 calls := s.calls[r := call.(stage := Writing(|call.plan.changes|))])
    decreases k
  {
    var call := s.calls[r];
    var all, n := call.plan.changes, call.stage.n;
    if k == 0 {
      assert all[..n] == all;
    } else {
      assert all[..n + 1] == all[..n] + [all[n]];
      WritesAlone(Gone(s, r), r, k - 1);
    }
  }

  /** From the last write on there are at most two steps. */
  lemma EndAlone(s: State, r: nat, db: Db)
    requires Enabled(s, Go(r)) && db.open.Keys == s.db.open.Keys
    requires var call := s.calls[r];
             && call.stage == Writing(|call.plan.changes|) && call.plan.begin
             && s.db == Begun(db, call.session, call.plan)
    ensures var call := s.calls[r];
            var t := Alone(s, r, 2);
            && t.db == After(db, call.session, call.plan) && r in t.calls
            && t.calls[r].stage.Released? && t.free == s.free + {call.session}
  {
    var call := s.calls[r];
    var c, p := call.session, call.plan;
    var u := Gone(s, r);
    assert Alone(s, r, 2) == Alone(u, r, 1);
    if Enabled(u, Go(r)) { assert Alone(u, r, 1) == Alone(Gone(u, r), r, 0); }
    assert s.db.open[c := []] == db.open[c := []];
  }

  /** A call whose steps no other call interrupts has the effect of the method: the
      database of the specification, and its connection back. */
  lemma AloneAsSpecified(s: State, r: nat)
    requires Enabled(s, Go(r)) && s.calls[r].stage.Starting?
    ensures var call := s.calls[r];
            var t := Alone(s, r, |call.plan.changes| + 3);
            && t.db == After(s.db, call.session, call.plan) && r in t.calls
            && t.calls[r].stage.Released? && t.free == s.free + {call.session}
  {
    var call := s.calls[r];
    var c, p := call.session, call.plan;
    var u := Gone(s, r);
    if p.begin {
      WritesAlone(u, r, |p.changes|);
      var v := Alone(u, r, |p.changes|);
      AloneJoin(u, r, |p.changes|, 2);
      assert v.db == Begun(s.db, c, p);
      EndAlone(v, r, s.db);
    } else {
      FailedBeginAlone(s, r);
      assert Alone(u, r, |p.changes| + 2) == Alone(Gone(u, r), r, |p.changes| + 1) == Gone(u, r);
    }
  }

  lemma FailedBeginAlone(s: State, r: nat)
    requires Enabled(s, Go(r)) && s.calls[r].stage.Starting? && !s.calls[r].plan.begin
    ensures Enabled(Gone(s, r), Go(r)) && !Enabled(Gone(Gone(s, r), r), Go(r))
    ensures var call := s.calls[r];
            var t := Gone(Gone(s, r), r);
            && t.db == After(s.db, call.session, call.plan) && r in t.calls
            && t.calls[r].stage.Released? && t.free == s.free + {call.session}
  {}
}
