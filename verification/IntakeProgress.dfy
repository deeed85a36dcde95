/** What the intake protocol gets done: some call can always go on, every call ends after a
    few steps, and when nothing fails exactly one of the calls for a new enquiry is told
    that it created it. */
module IntakeProgress {
  import opened Wrappers
  import opened Hash
  import opened Intake
  import opened IntakeSafety
  import opened IntakeResults

  /** The next step of a call when nothing fails. */
  function Way(c: Call): Op {
    match c.phase
    case Arrived => Key(Enter)
    case ClaimLost => Key(LookUp)
    case Admitted => if c.body.None? then RejectBody else Txn(Begin)
    case InTxn => Txn(DrawId)
    case Inserting(_) => Txn(PassUnique)
    case Inserted(_) => Txn(Commit)
    case RollingBack(_) => Txn(Rollback(true))
    case Committed => Work(AddCrm)
    case CrmQueued => Work(AddEmail)
    case EmailQueued => Work(Count)
    case Responding(_) => Key(Respond)
    case Storing => Key(Store)
    case _ => Crash
  }

  // -------------------------------------------------------------------- no deadlock

  lemma WayOpen(s: State, r: nat)
    requires r in s.calls && LocalOk(r, s.calls[r]) && !Over(s.calls[r].phase)
    ensures OpEnabled(s, r, Way(s.calls[r])) || (s.calls[r].phase.Inserting? && Blocked(s, r))
  {
    hide Blocked;
  }

  lemma HolderCommits(s: State, q: nat)
    requires q in s.calls && LocalOk(q, s.calls[q]) && s.calls[q].phase.Inserted?
    ensures OpEnabled(s, q, Txn(Commit))
  {
    hide Blocked;
  }

  /** In every reachable state each unfinished call can take its next step, or waits for one
      that holds the same enquiry and can commit. No deadlock. */
  lemma SomeCallGoesOn(tr: seq<State>, acts: seq<Action>, n: nat, r: nat) returns (q: nat)
    requires Run(tr, acts) && n < |tr| && r in tr[n].calls && !Over(tr[n].calls[r].phase)
    ensures q in tr[n].calls && !Over(tr[n].calls[q].phase) && OpEnabled(tr[n], q, Way(tr[n].calls[q]))
    ensures q == r || (tr[n].calls[r].phase.Inserting? && tr[n].calls[q].phase.Inserted?
                       && tr[n].calls[q].digest == tr[n].calls[r].digest)
  {
    hide Run, Inv, LocalOk, OpEnabled;
    var s := tr[n];
    RunInv(tr, acts, n);
    CallOfInv(s, r);
    WayOpen(s, r);
    if OpEnabled(s, r, Way(s.calls[r])) {
      q := r;
    } else {
      q :| q in s.calls && q != r && s.calls[q].phase.Inserted? && s.calls[q].digest == s.calls[r].digest;
      CallOfInv(s, q);
      HolderCommits(s, q);
    }
  }

  // --------------------------------------------------------------------- termination

  /** How many more steps a call can take. */
  function Todo(p: Phase): nat {
    match p
    case Arrived => 12
    case ClaimLost => 1
    case Admitted => 11
    case InTxn => 10
    case Inserting(_) => 9
    case Inserted(_) => 8
    case Committed => 5
    case RollingBack(_) => 4
    case CrmQueued => 4
    case EmailQueued => 3
    case Responding(_) => 2
    case Storing => 1
    case _ => 0
  }

  lemma KeyShortens(s: State, r: nat, op: KeyOp)
    requires r in s.calls && KeyEnabled(s.calls[r], op)
    ensures r in PerformKey(s, r, op).calls && Todo(PerformKey(s, r, op).calls[r].phase) < Todo(s.calls[r].phase)
  {
    hide Live;
  }

  lemma TxnShortens(s: State, r: nat, op: TxnOp)
    requires r in s.calls && TxnEnabled(s.calls[r], op)
    ensures r in PerformTxn(s, r, op).calls && Todo(PerformTxn(s, r, op).calls[r].phase) < Todo(s.calls[r].phase)
  {
    hide Taken;
  }

  lemma WorkShortens(s: State, r: nat, op: WorkOp)
    requires r in s.calls && WorkEnabled(s.calls[r], op)
    ensures r in PerformWork(s, r, op).calls && Todo(PerformWork(s, r, op).calls[r].phase) < Todo(s.calls[r].phase)
  {}

  lemma StepShortens(s: State, r: nat, op: Op)
    requires r in s.calls && OpEnabled(s, r, op)
    ensures r in Perform(s, r, op).calls && Todo(Perform(s, r, op).calls[r].phase) < Todo(s.calls[r].phase)
  {
    hide PerformKey, PerformTxn, PerformWork, Blocked;
    match op {
      case Key(k) => KeyShortens(s, r, k);
      case Txn(t) => TxnShortens(s, r, t);
      case Work(w) => WorkShortens(s, r, w);
      case _ =>
    }
  }

  function StepsOf(acts: seq<Action>, n: nat, r: nat): nat
    requires n <= |acts|
  {
    if n == 0 then 0 else StepsOf(acts, n - 1, r) + (if acts[n - 1].Do? && acts[n - 1].call == r then 1 else 0)
  }

  /** An action of one call, an arrival or the surroundings leave a call as it was, unless
      it is the action of this call. */
  lemma OthersStay(s: State, a: Action, r: nat)
    requires Inv(s) && Enabled(s, a) && r in s.calls && !(a.Do? && a.call == r)
    ensures r in Next(s, a).calls && Next(s, a).calls[r] == s.calls[r]
  {
    hide Perform, OpEnabled, Inv, LocalOk;
    if a.Do? {
      CallOfInv(s, a.call);
      PerformDelta(s, a.call, a.op);
    }
  }

  lemma NewCall(s: State, a: Action, r: nat)
    requires Inv(s) && Enabled(s, a) && r !in s.calls
    ensures !(a.Do? && a.call == r)
    ensures r in Next(s, a).calls ==> a.Arrive? && a.r == r && Next(s, a).calls[r].phase == Arrived
                                      && Next(s, a).calls[r].answer.None? && Next(s, a).calls[r].reached == 0
  {
    hide Perform, OpEnabled, Inv, LocalOk;
    if a.Do? {
      CallOfInv(s, a.call);
      PerformDelta(s, a.call, a.op);
    }
  }

  /** No call takes more than twelve steps in any run, whatever fails. */
  lemma {:induction false} CallsEnd(tr: seq<State>, acts: seq<Action>, n: nat, r: nat)
    requires Run(tr, acts) && n <= |acts|
    ensures if r in tr[n].calls then StepsOf(acts, n, r) + Todo(tr[n].calls[r].phase) <= 12
            else StepsOf(acts, n, r) == 0
  {
    hide Inv, Next, Enabled;
    if n > 0 {
      var s, a := tr[n - 1], acts[n - 1];
      CallsEnd(tr, acts, n - 1, r);
      RunInv(tr, acts, n - 1);
      if r !in s.calls {
        NewCall(s, a, r);
      } else if a.Do? && a.call == r {
        DoShortens(s, a, r);
      } else {
        OthersStay(s, a, r);
      }
    }
  }

  lemma DoShortens(s: State, a: Action, r: nat)
    requires Enabled(s, a) && a.Do? && a.call == r
    ensures r in s.calls && r in Next(s, a).calls
    ensures Todo(Next(s, a).calls[r].phase) < Todo(s.calls[r].phase)
  {
    hide Perform, OpEnabled;
    StepShortens(s, r, a.op);
  }

  // ------------------------------------------------------------- when nothing fails

  /** No error, no crash. */
  predicate Sound(op: Op) {
    match op
    case Key(k) => k.Enter? || k.LookUp? || k.Respond? || k.Store?
    case RejectBody => true
    case Txn(t) => t.Begin? || t.DrawId? || t.PassUnique? || t == Rollback(true) || t.Commit?
    case Work(w) => w.AddCrm? || w.AddEmail? || w.Count?
    case Crash => false
  }

  /** A step without errors, in which a transaction for enquiry d finds its property. */
  predicate Smooth(d: Digest, s: State, a: Action)
    requires Enabled(s, a)
  {
    a.Do? ==>
      && Sound(a.op)
      && (a.op == Txn(Begin) && s.calls[a.call].digest == d ==> s.calls[a.call].body.value.propertyId in s.published)
  }

  /** The only error such a call can end in is the duplicate. */
  predicate OnlyDuplicate(c: Call) {
    && !c.phase.Crashed?
    && (c.phase.RollingBack? ==> c.phase.code == 409)
    && (c.phase.Responding? && c.phase.response.Error? ==> c.phase.response.code == 409)
    && (c.answer.Some? && c.answer.value.Error? ==> c.answer.value.code == 409)
  }

  lemma SmoothStep(d: Digest, s: State, r: nat, op: Op)
    requires r in s.calls && OpEnabled(s, r, op) && Smooth(d, s, Do(r, op))
    requires s.calls[r].digest == d && s.calls[r].body.Some? && OnlyDuplicate(s.calls[r])
    ensures r in Perform(s, r, op).calls && OnlyDuplicate(Perform(s, r, op).calls[r])
  {
    hide PerformKey, PerformTxn, PerformWork, Blocked, OnlyDuplicate;
    match op {
      case Key(k) => SmoothKey(s, r, k);
      case Txn(t) => SmoothTxn(d, s, r, t);
      case Work(w) => SmoothWork(s, r, w);
      case RejectBody => assert false;
    }
  }

  lemma SmoothKey(s: State, r: nat, op: KeyOp)
    requires r in s.calls && KeyEnabled(s.calls[r], op) && Sound(Key(op)) && OnlyDuplicate(s.calls[r])
    ensures r in PerformKey(s, r, op).calls && OnlyDuplicate(PerformKey(s, r, op).calls[r])
  {
    hide Live;
  }

  lemma SmoothTxn(d: Digest, s: State, r: nat, op: TxnOp)
    requires r in s.calls && TxnEnabled(s.calls[r], op) && Sound(Txn(op)) && OnlyDuplicate(s.calls[r])
    requires op.Begin? ==> s.calls[r].body.value.propertyId in s.published
    ensures r in PerformTxn(s, r, op).calls && OnlyDuplicate(PerformTxn(s, r, op).calls[r])
  {
    hide Taken;
  }

  lemma SmoothWork(s: State, r: nat, op: WorkOp)
    requires r in s.calls && WorkEnabled(s.calls[r], op) && Sound(Work(op)) && OnlyDuplicate(s.calls[r])
    ensures r in PerformWork(s, r, op).calls && OnlyDuplicate(PerformWork(s, r, op).calls[r])
  {}

  lemma {:induction false} SmoothCalls(tr: seq<State>, acts: seq<Action>, n: nat, d: Digest, r: nat)
    requires Run(tr, acts) && n < |tr|
    requires forall i :: 0 <= i < |acts| ==> Smooth(d, tr[i], acts[i])
    requires r in tr[n].calls && tr[n].calls[r].digest == d && tr[n].calls[r].body.Some?
    ensures OnlyDuplicate(tr[n].calls[r])
  {
    hide Inv, Next, Enabled, Smooth, OnlyDuplicate;
    var s, a := tr[n - 1], acts[n - 1];
    RunInv(tr, acts, n - 1);
    if r !in s.calls {
      NewCall(s, a, r);
      NewOnlyDuplicate(tr[n].calls[r]);
    } else {
      StepGrows(s, a);
      SmoothCalls(tr, acts, n - 1, d, r);
      if a.Do? && a.call == r {
        SmoothDo(d, s, a, r);
      } else {
        OthersStay(s, a, r);
      }
    }
  }

  lemma SmoothDo(d: Digest, s: State, a: Action, r: nat)
    requires Enabled(s, a) && Smooth(d, s, a) && a.Do? && a.call == r
    requires s.calls[r].digest == d && s.calls[r].body.Some? && OnlyDuplicate(s.calls[r])
    ensures r in Next(s, a).calls && OnlyDuplicate(Next(s, a).calls[r])
  {
    hide Perform, OpEnabled, OnlyDuplicate;
    SmoothStep(d, s, r, a.op);
  }

  lemma NewOnlyDuplicate(c: Call)
    requires c.phase == Arrived && c.answer.None?
    ensures OnlyDuplicate(c)
  {}

  /** Call r was told that it created its enquiry. */
  predicate ToldCreated(s: State, r: nat) {
    r in s.calls && s.calls[r].answer.Some? && s.calls[r].answer.value.Created?
  }

  /** A finished call that committed a row answers 201. */
  lemma AuthorTold(s: State, r: nat)
    requires Inv(s) && r in s.calls && s.calls[r].row.Some? && Over(s.calls[r].phase) && OnlyDuplicate(s.calls[r])
    ensures ToldCreated(s, r)
  {
    hide Inv;
    CallOfInv(s, r);
  }

  lemma AnswerOrDuplicate(s: State, r: nat)
    requires Inv(s) && r in s.calls && s.calls[r].answer.Some? && OnlyDuplicate(s.calls[r]) && !ToldCreated(s, r)
    ensures s.calls[r].answer == Some(Error(409, r)) && SaysDuplicate(s.calls[r])
  {
    hide Inv;
    CallOfInv(s, r);
  }

  lemma DuplicateHasAuthor(s: State, r: nat) returns (q: nat)
    requires Inv(s) && r in s.calls && SaysDuplicate(s.calls[r])
    ensures q in s.calls && s.calls[q].row.Some? && s.calls[q].body.Some? && s.calls[q].digest == s.calls[r].digest
  {
    hide LocalOk, IdsOk, UniqueOk, CrmOk, MailOk, CountsOk, KeysOk, DigestsOk;
    var id :| id in s.rows && s.rows[id].digest == s.calls[r].digest;
    q := s.rows[id].author;
  }

  /** When nothing fails, the property is published, and all calls for an enquiry are over,
      then as soon as one of them was answered, exactly one was told that it created the
      enquiry, and every other answer is the duplicate. */
  lemma ExactlyOneCreated(tr: seq<State>, acts: seq<Action>, n: nat, r: nat) returns (q: nat)
    requires Run(tr, acts) && n < |tr| && r in tr[n].calls
    requires tr[n].calls[r].body.Some? && tr[n].calls[r].answer.Some?
    requires forall i :: 0 <= i < |acts| ==> Smooth(tr[n].calls[r].digest, tr[i], acts[i])
    requires forall x :: x in tr[n].calls && tr[n].calls[x].digest == tr[n].calls[r].digest ==>
               Over(tr[n].calls[x].phase)
    ensures ToldCreated(tr[n], q) && tr[n].calls[q].digest == tr[n].calls[r].digest
    ensures forall x :: x in tr[n].calls && x != q && tr[n].calls[x].digest == tr[n].calls[r].digest
                        && tr[n].calls[x].body.Some? && tr[n].calls[x].answer.Some? ==>
              tr[n].calls[x].answer == Some(Error(409, x))
  {
    hide Run, Inv, Over, OnlyDuplicate, Smooth, Fingerprint;
    var s, d := tr[n], tr[n].calls[r].digest;
    RunInv(tr, acts, n);
    SmoothCalls(tr, acts, n, d, r);
    if ToldCreated(s, r) {
      q := r;
    } else {
      AnswerOrDuplicate(s, r);
      q := DuplicateHasAuthor(s, r);
      SmoothCalls(tr, acts, n, d, q);
      AuthorTold(s, q);
    }
    forall x | x in s.calls && x != q && s.calls[x].digest == d && s.calls[x].body.Some? && s.calls[x].answer.Some?
      ensures s.calls[x].answer == Some(Error(409, x))
    {
      SmoothCalls(tr, acts, n, d, x);
      if ToldCreated(s, x) {
        OneToldCreated(tr, acts, n, q, x);
      } else {
        AnswerOrDuplicate(s, x);
      }
    }
  }

  lemma OneToldCreated(tr: seq<State>, acts: seq<Action>, n: nat, q: nat, x: nat)
    requires Run(tr, acts) && n < |tr| && ToldCreated(tr[n], q) && ToldCreated(tr[n], x)
    requires tr[n].calls[q].digest == tr[n].calls[x].digest
    ensures q == x
  {
    hide Run, SameEnquiry, Inv;
    RunInv(tr, acts, n);
    CreatedIsOwn(tr, acts, n, q);
    CreatedIsOwn(tr, acts, n, x);
    ToldFacts(tr[n], q);
    ToldFacts(tr[n], x);
    FingerprintEquivalence(tr[n].calls[q].body.value, tr[n].calls[x].body.value);
    AtMostOneCreated(tr, acts, n, q, x);
  }

  lemma ToldFacts(s: State, r: nat)
    requires Inv(s) && ToldCreated(s, r)
    ensures s.calls[r].row.Some? && s.calls[r].body.Some? && Validated(s.calls[r].body.value)
    ensures s.calls[r].digest == Fingerprint(s.calls[r].body.value)
  {
    hide RowsOk, IdsOk, UniqueOk, DuplicatesOk, CrmOk, MailOk, CountsOk, KeysOk, Fingerprint;
    assert LocalOk(r, s.calls[r]);
  }

  // ------------------------------------------------------- requests the schema refuses

  /** What becomes of a call without a valid body. */
  predicate OnlyRefused(r: nat, c: Call) {
    && c.reached == 0
    && (c.phase.Responding? ==> c.phase.response == Error(400, r))
    && (c.answer.Some? ==> c.answer.value == Error(400, r))
  }

  lemma RefusedKey(s: State, r: nat, op: KeyOp)
    requires r in s.calls && KeyEnabled(s.calls[r], op) && OnlyRefused(r, s.calls[r])
    ensures r in PerformKey(s, r, op).calls && OnlyRefused(r, PerformKey(s, r, op).calls[r])
  {
    hide Live;
  }

  lemma RefusedDo(s: State, a: Action, r: nat)
    requires Enabled(s, a) && a.Do? && a.call == r && s.calls[r].body.None? && OnlyRefused(r, s.calls[r])
    requires s.calls[r].row.None?
    ensures r in Next(s, a).calls && OnlyRefused(r, Next(s, a).calls[r])
  {
    hide PerformKey, PerformTxn, PerformWork, Blocked;
    if a.op.Key? { RefusedKey(s, r, a.op.k); }
  }

  /** A request whose body the schema refuses makes nothing, and its answer, if any, is 400. */
  lemma {:induction false} RefusedBody(tr: seq<State>, acts: seq<Action>, n: nat, r: nat)
    requires Run(tr, acts) && n < |tr| && r in tr[n].calls && tr[n].calls[r].body.None?
    ensures OnlyRefused(r, tr[n].calls[r])
    ensures tr[n].calls[r].answer.Some? ==> tr[n].calls[r].answer == Some(Error(400, r))
  {
    hide Inv, Next, Enabled;
    var s, a := tr[n - 1], acts[n - 1];
    RunInv(tr, acts, n - 1);
    if r !in s.calls {
      NewCall(s, a, r);
    } else {
      StepGrows(s, a);
      RefusedBody(tr, acts, n - 1, r);
      if a.Do? && a.call == r {
        CallOfInv(s, r);
        RefusedDo(s, a, r);
      } else {
        OthersStay(s, a, r);
      }
    }
  }
}
