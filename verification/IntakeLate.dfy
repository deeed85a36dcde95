/** The idempotency window without the timing condition: as soon as one handler outlives
    its claim, a second handler can run under the same key, and the late one overwrites the
    second one's entry. */
module IntakeLate {
  import opened Wrappers
  import opened Hash
  import opened Intake
  import opened IntakeSafety
  import opened IntakeKeys
  import opened IntakeWindow

  lemma Extend(tr: seq<State>, acts: seq<Action>, a: Action) returns (tr': seq<State>, acts': seq<Action>)
    requires Run(tr, acts) && Enabled(tr[|acts|], a)
    ensures Run(tr', acts') && tr' == tr + [Next(tr[|acts|], a)] && acts' == acts + [a]
    ensures |tr| == |acts| + 1 && |tr'| == |acts'| + 1 && tr'[|acts'|] == Next(tr[|acts|], a)
  {
    hide Next, Enabled;
    tr', acts' := tr + [Next(tr[|acts|], a)], acts + [a];
  }

  lemma RunPrefix(tr: seq<State>, acts: seq<Action>, n: nat)
    requires Run(tr, acts) && n <= |acts|
    ensures Run(tr[..n + 1], acts[..n])
  {
    hide Next, Enabled;
  }

  // ------------------------------------------------------- a busy call can finish

  /** A way to its end for a call that holds a claim: let the statement fail, roll back,
      answer, store. */
  function Onward(c: Call): Op {
    match c.phase
    case Admitted => if c.body.None? then RejectBody else Txn(BeginError)
    case InTxn => Txn(DbError)
    case Inserting(_) => Txn(DbError)
    case Inserted(_) => Txn(DbError)
    case RollingBack(_) => Txn(Rollback(true))
    case Committed => Work(AddCrmError(false))
    case CrmQueued => Work(AddEmailError(false))
    case EmailQueued => Work(Count)
    case Responding(_) => Key(Respond)
    case Storing => Key(Store)
    case _ => Crash
  }

  function Left(p: Phase): nat {
    if InTransaction(p) then 4
    else if p.Admitted? || p.RollingBack? || p.Committed? || p.CrmQueued? || p.EmailQueued? then 3
    else if p.Responding? then 2
    else if p.Storing? then 1
    else 0
  }

  /** What call r has done by the end: its answer is stored under its key. */
  ghost predicate Stored(s: State, r: nat) {
    && r in s.calls
    && var c := s.calls[r];
       && c.key.Some? && c.answer.Some? && c.claimedAt.Some? && c.storedAt == Some(s.now)
       && c.key.value in s.idem
       && s.idem[c.key.value] == Entry(Completed(c.answer.value), s.now + KEY_TTL, r)
  }

  /** Only call r has moved, and no time has passed. */
  ghost predicate OnlyMoves(s: State, t: State, r: nat) {
    && t.now == s.now && r in s.calls && t.calls.Keys == s.calls.Keys
    && t.calls[r].claimedAt == s.calls[r].claimedAt && t.calls[r].key == s.calls[r].key
    && forall q :: q in s.calls && q != r ==> t.calls[q] == s.calls[q]
  }

  /** The onward step of call r gets it nearer its end, and is its last when it stores. */
  ghost predicate MovesOn(s: State, t: State, r: nat)
    requires r in s.calls
  {
    && OnlyMoves(s, t, r)
    && if s.calls[r].phase.Storing? then Stored(t, r)
       else Busy(t.calls[r]) && Left(t.calls[r].phase) < Left(s.calls[r].phase)
  }

  lemma OnwardKey(s: State, r: nat)
    requires r in s.calls && LocalOk(r, s.calls[r]) && Busy(s.calls[r])
    requires s.calls[r].phase.Responding? || s.calls[r].phase.Storing?
    ensures OpEnabled(s, r, Onward(s.calls[r])) && MovesOn(s, Perform(s, r, Onward(s.calls[r])), r)
  {
    hide PerformTxn, PerformWork;
  }

  lemma OnwardTxn(s: State, r: nat)
    requires r in s.calls && LocalOk(r, s.calls[r]) && Busy(s.calls[r])
    requires InTransaction(s.calls[r].phase) || s.calls[r].phase.RollingBack? || s.calls[r].phase.Admitted?
    ensures OpEnabled(s, r, Onward(s.calls[r])) && MovesOn(s, Perform(s, r, Onward(s.calls[r])), r)
  {
    hide PerformKey, PerformWork, Stored;
  }

  lemma OnwardWork(s: State, r: nat)
    requires r in s.calls && LocalOk(r, s.calls[r]) && Busy(s.calls[r])
    requires s.calls[r].phase.Committed? || s.calls[r].phase.CrmQueued? || s.calls[r].phase.EmailQueued?
    ensures OpEnabled(s, r, Onward(s.calls[r])) && MovesOn(s, Perform(s, r, Onward(s.calls[r])), r)
  {
    hide PerformKey, PerformTxn, Stored;
  }

  lemma OnwardAction(s: State, r: nat) returns (a: Action)
    requires Inv(s) && r in s.calls && Busy(s.calls[r])
    ensures Enabled(s, a) && MovesOn(s, Next(s, a), r)
  {
    a := Do(r, Onward(s.calls[r]));
    hide Inv, LocalOk, Left, MovesOn, Perform, OpEnabled, Onward;
    CallOfInv(s, r);
    var p := s.calls[r].phase;
    if p.Responding? || p.Storing? {
      OnwardKey(s, r);
    } else if p.Committed? || p.CrmQueued? || p.EmailQueued? {
      OnwardWork(s, r);
    } else {
      OnwardTxn(s, r);
    }
  }

  lemma OnlyMovesTrans(s: State, t: State, u: State, r: nat)
    requires OnlyMoves(s, t, r) && OnlyMoves(t, u, r)
    ensures OnlyMoves(s, u, r)
  {}

  lemma {:induction false} FinishCall(tr: seq<State>, acts: seq<Action>, r: nat)
    returns (tr': seq<State>, acts': seq<Action>)
    requires Run(tr, acts) && r in tr[|acts|].calls && Busy(tr[|acts|].calls[r])
    ensures Run(tr', acts') && tr <= tr' && acts <= acts'
    ensures OnlyMoves(tr[|acts|], tr'[|acts'|], r) && Stored(tr'[|acts'|], r)
    decreases Left(tr[|acts|].calls[r].phase)
  {
    hide Inv, Next, Enabled, Busy, Left, OnlyMoves, Stored;
    var s := tr[|acts|];
    RunInv(tr, acts, |acts|);
    var a := OnwardAction(s, r);
    MovedStays(s, Next(s, a), r);
    tr', acts' := Extend(tr, acts, a);
    if !s.calls[r].phase.Storing? {
      var tr1, acts1 := tr', acts';
      tr', acts' := FinishCall(tr1, acts1, r);
      OnlyMovesTrans(s, tr1[|acts1|], tr'[|acts'|], r);
    }
  }

  lemma MovedStays(s: State, t: State, r: nat)
    requires OnlyMoves(s, t, r)
    ensures r in t.calls
  {}

  // --------------------------------------------------------- a second call comes in

  /** Call q holds a claim made now on the key, and is inside createEnquiry. */
  ghost predicate Inside(s: State, q: nat, key: Option<string>, published: bool) {
    && q in s.calls && s.calls[q].key == key && s.calls[q].claimedAt == Some(s.now) && Busy(s.calls[q])
    && s.calls[q].phase == (if published then InTxn else RollingBack(404))
  }

  /** Once the entry has expired, a new request claims the key and starts its handler. */
  lemma SecondComesIn(tr: seq<State>, acts: seq<Action>, q: nat,
                      path: string, header: Option<string>, body: EnquiryInput)
    returns (tr': seq<State>, acts': seq<Action>)
    requires Run(tr, acts) && q !in tr[|acts|].calls && Validated(body) && RedisKey(path, header).Some?
    requires !Live(tr[|acts|], RedisKey(path, header).value)
    ensures Run(tr', acts') && tr <= tr' && acts <= acts'
    ensures Inside(tr'[|acts'|], q, RedisKey(path, header), body.propertyId in tr[|acts|].published)
    ensures tr'[|acts'|].now == tr[|acts|].now
    ensures var s, u := tr[|acts|], tr'[|acts'|];
            forall r :: r in s.calls ==> r in u.calls && u.calls[r] == s.calls[r]
  {
    var s := tr[|acts|];
    hide Fingerprint, RedisKey, Run;
    var a, b, c := Arrive(q, path, header, Some(body)), Do(q, Key(Enter)), Do(q, Txn(Begin));
    var s1 := Next(s, a);
    assert Enabled(s1, b);
    var s2 := Next(s1, b);
    assert s2.calls[q].phase.Admitted? && Enabled(s2, c);
    tr', acts' := Extend(tr, acts, a);
    tr', acts' := Extend(tr', acts', b);
    tr', acts' := Extend(tr', acts', c);
  }

  lemma LetExpire(tr: seq<State>, acts: seq<Action>, key: string) returns (tr': seq<State>, acts': seq<Action>)
    requires Run(tr, acts)
    ensures Run(tr', acts') && tr <= tr' && acts <= acts'
    ensures !Live(tr'[|acts'|], key)
    ensures tr'[|acts'|].calls == tr[|acts|].calls && tr'[|acts'|].now >= tr[|acts|].now
    ensures tr'[|acts'|].published == tr[|acts|].published
  {
    var s := tr[|acts|];
    hide Run;
    tr', acts' := Extend(tr, acts, Tick(if Live(s, key) then s.idem[key].expiresAt - s.now else 0));
  }

  // -------------------------------------------------------------------- main results

  /** What goes wrong in a run: at its m-th state both calls hold a claim on the key and
      have not finished; at its end call r has stored its answer over the entry of call q,
      which is still at work, and the claim of q lies in the window of r. */
  ghost predicate BreaksWindow(tr: seq<State>, m: nat, r: nat, q: nat) {
    && m < |tr| && q != r
    && r in tr[m].calls && q in tr[m].calls && tr[m].calls[r].key == tr[m].calls[q].key
    && Busy(tr[m].calls[r]) && Busy(tr[m].calls[q])
    && var s := tr[|tr| - 1];
       && q in s.calls && Busy(s.calls[q]) && Stored(s, r) && s.calls[q].key == s.calls[r].key
       && s.calls[q].claimedAt.Some?
       && s.calls[r].claimedAt.value <= s.calls[q].claimedAt.value < End(s.calls[r])
  }

  /** From every reachable state in which a handler has outlived its claim, the run can go
      on to a second handler under the same key, at the same time. */
  lemma LateHandlerLetsSecondIn(tr: seq<State>, acts: seq<Action>, r: nat, q: nat, body: EnquiryInput)
    returns (tr': seq<State>, acts': seq<Action>, m: nat)
    requires Run(tr, acts) && r in tr[|acts|].calls && Busy(tr[|acts|].calls[r])
    requires tr[|acts|].now >= tr[|acts|].calls[r].claimedAt.value + KEY_TTL
    requires q !in tr[|acts|].calls && Validated(body)
    ensures Run(tr', acts') && tr <= tr' && acts <= acts' && BreaksWindow(tr', m, r, q)
    ensures tr'[m].calls[r] == tr[|acts|].calls[r]
    ensures tr'[m].calls[q].phase == if body.propertyId in tr[|acts|].published then InTxn else RollingBack(404)
  {
    hide Next, Enabled, Inv, RedisKey, Live;
    var c := tr[|acts|].calls[r];
    RunInv(tr, acts, |acts|);
    KeyOfBusy(tr[|acts|], r);
    var x := ArrivalOf(tr, acts, |acts|, r);
    KeyOfArrival(tr, acts, |acts|, x);
    var path, header := acts[x].path, acts[x].header;
    tr', acts' := LetExpire(tr, acts, c.key.value);
    tr', acts' := SecondComesIn(tr', acts', q, path, header, body);
    m := |acts'|;
    var mid := tr'[m];
    tr', acts' := FinishCall(tr', acts', r);
    assert tr'[m] == mid;
  }

  lemma KeyOfBusy(s: State, r: nat)
    requires Inv(s) && r in s.calls && Busy(s.calls[r])
    ensures s.calls[r].key.Some?
  {
    CallOfInv(s, r);
    hide Inv;
  }

  /** So the timing condition is exact: any run that breaks it anywhere has a continuation
      from there that breaks the window, and OneClaimPerKey says that no run that keeps
      it does. */
  lemma UntimelyCanBreak(tr: seq<State>, acts: seq<Action>, i: nat, q: nat, body: EnquiryInput)
    returns (r: nat, tr': seq<State>, acts': seq<Action>, m: nat)
    requires Run(tr, acts) && i < |tr| && !Timely(tr[i]) && q !in tr[i].calls && Validated(body)
    ensures Run(tr', acts') && tr[..i + 1] <= tr' && BreaksWindow(tr', m, r, q)
  {
    hide Next, Enabled, BreaksWindow;
    RunPrefix(tr, acts, i);
    r :| r in tr[i].calls && Busy(tr[i].calls[r]) && tr[i].now >= tr[i].calls[r].claimedAt.value + KEY_TTL;
    tr', acts', m := LateHandlerLetsSecondIn(tr[..i + 1], acts[..i], r, q, body);
  }

  /** A run that breaks the window is not timely. */
  lemma TimelyNeverBreaks(tr: seq<State>, acts: seq<Action>, m: nat, r: nat, q: nat)
    requires TimelyRun(tr, acts)
    ensures !BreaksWindow(tr, m, r, q)
  {
    if BreaksWindow(tr, m, r, q) {
      hide Busy, TimelyRun, Run;
      OneClaimPerKey(tr, acts, |tr| - 1, r, q);
      assert false;
    }
  }

  // ----------------------------------------------------------------- a slow INSERT

  const BODY := EnquiryInput("n", "e", None, 7, "m")

  /** One request whose statements take a day. */
  const SLOW_INSERT := [
    Publish(7), Arrive(1, "/enquiry", Some("k"), Some(BODY)), Do(1, Key(Enter)), Do(1, Txn(Begin)), Tick(KEY_TTL)]

  lemma SlowInsertRuns() returns (tr: seq<State>)
    ensures Run(tr, SLOW_INSERT) && tr[5].calls.Keys == {1}
    ensures 7 in tr[5].published && tr[5].now == KEY_TTL
    ensures tr[5].calls[1].phase.InTxn? && tr[5].calls[1].claimedAt == Some(0)
  {
    hide Fingerprint;
    var s1 := Next(EMPTY, SLOW_INSERT[0]);
    var s2 := Next(s1, SLOW_INSERT[1]);
    var s3 := Next(s2, SLOW_INSERT[2]);
    var s4 := Next(s3, SLOW_INSERT[3]);
    var s5 := Next(s4, SLOW_INSERT[4]);
    tr := [EMPTY, s1, s2, s3, s4, s5];
  }

  /** A transaction that is open for 24 h: a second request with the same key enters its
      own transaction, and is overwritten by the first one's answer. */
  lemma SlowHandlerBreaksWindow() returns (tr: seq<State>, acts: seq<Action>, m: nat)
    ensures Run(tr, acts) && SLOW_INSERT <= acts && BreaksWindow(tr, m, 1, 2)
    ensures tr[m].calls[1].phase.InTxn? && tr[m].calls[2].phase.InTxn?
  {
    var slow := SlowInsertRuns();
    hide BreaksWindow, Run;
    tr, acts, m := LateHandlerLetsSecondIn(slow, SLOW_INSERT, 1, 2, BODY);
  }
}
