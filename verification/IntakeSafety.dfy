/** What every reachable state of the intake protocol keeps: one row per enquiry, the
    chain from row to jobs to counter, its conservation law, and truthful stored
    answers. No assumption is made on timing, crashes or errors. */
module IntakeSafety {
  import opened Wrappers
  import opened Hash
  import opened Intake

  // ---------------------------------------------------------------- invariants

  /** What a response says about the call that gave it. */
  ghost predicate Truthful(r: nat, c: Call, a: Response) {
    match a
    case Created(id, content) => c.reached == 4 && c.row == Some(id) && c.body == Some(content)
    case Error(code, requestId) =>
      && requestId == r && c.reached < 4
      && (code == 500 || (c.reached == 0 && (code == 400 || code == 404 || (code == 409 && c.body.Some?))))
  }

  ghost predicate Unanswered(c: Call) { c.answer.None? && c.storedAt.None? }

  /** Facts of one call record, phase by phase. */
  ghost predicate LocalOk(r: nat, c: Call) {
    && (c.row.Some? <==> c.reached >= 1) && c.reached <= 4
    && (c.row.Some? ==> c.body.Some?)
    && (c.claimedAt.Some? ==> c.key.Some?)
    && (c.key.Some? && c.claimedAt.None? ==> c.reached == 0 && c.answer.None?)
    && (c.answer.Some? ==> Truthful(r, c, c.answer.value))
    && (c.storedAt.Some? ==> c.answer.Some? && c.claimedAt.Some? && c.phase.Finished?)
    && match c.phase
       case Arrived => c.reached == 0 && Unanswered(c) && c.claimedAt.None?
       case ClaimLost => c.reached == 0 && Unanswered(c) && c.claimedAt.None? && c.key.Some?
       case Refused(_, _) => c.reached == 0 && Unanswered(c) && c.claimedAt.None? && c.key.Some?
       case Replayed(_, _, _) => c.reached == 0 && Unanswered(c) && c.claimedAt.None? && c.key.Some?
       case Faulted => c.reached == 0 && Unanswered(c)
       case Admitted => c.reached == 0 && Handling(c)
       case InTxn => c.reached == 0 && Handling(c) && c.body.Some?
       case Inserting(_) => c.reached == 0 && Handling(c) && c.body.Some?
       case Inserted(_) => c.reached == 0 && Handling(c) && c.body.Some?
       case RollingBack(code) =>
         && Handling(c) && c.body.Some? && c.reached <= 1
         && (code == 500 || (c.reached == 0 && (code == 404 || code == 409)))
       case Committed => c.reached == 1 && Handling(c)
       case CrmQueued => c.reached == 2 && Handling(c)
       case EmailQueued => c.reached == 3 && Handling(c)
       case Responding(a) => Handling(c) && Truthful(r, c, a)
       case Storing => c.key.Some? && c.claimedAt.Some? && c.answer.Some? && c.storedAt.None?
       case Finished => c.answer.Some?
       case Crashed => c.storedAt.None?
  }

  ghost predicate Handling(c: Call) {
    Unanswered(c) && (c.key.Some? ==> c.claimedAt.Some?)
  }

  ghost predicate DigestsOk(s: State) {
    forall r :: r in s.calls && s.calls[r].body.Some? ==>
      Validated(s.calls[r].body.value) && s.calls[r].digest == Fingerprint(s.calls[r].body.value)
  }

  ghost predicate CallsOk(s: State) {
    forall r :: r in s.calls ==> LocalOk(r, s.calls[r])
  }

  ghost predicate RowsOk(s: State) {
    && (forall id :: id in s.rows ==>
          var q := s.rows[id].author;
          && q in s.calls && s.calls[q].row == Some(id)
          && s.calls[q].body == Some(s.rows[id].content) && s.rows[id].digest == s.calls[q].digest)
    && (forall r :: r in s.calls && s.calls[r].row.Some? ==>
          s.calls[r].row.value in s.rows && s.rows[s.calls[r].row.value].author == r)
  }

  function HeldId(p: Phase): Option<nat> {
    match p case Inserting(id) => Some(id) case Inserted(id) => Some(id) case _ => None
  }

  /** Drawn ids are below the counter, used once, and not yet in the table. */
  ghost predicate IdsOk(s: State) {
    && (forall id :: id in s.rows ==> id < s.nextId)
    && (forall r :: r in s.calls && HeldId(s.calls[r].phase).Some? ==>
          HeldId(s.calls[r].phase).value < s.nextId && HeldId(s.calls[r].phase).value !in s.rows)
    && (forall q, r :: q in s.calls && r in s.calls && q != r && HeldId(s.calls[q].phase).Some? ==>
          HeldId(s.calls[q].phase) != HeldId(s.calls[r].phase))
  }

  /** The UNIQUE key: over committed rows and held rows together. */
  ghost predicate UniqueOk(s: State) {
    && (forall i, j :: i in s.rows && j in s.rows && s.rows[i].digest == s.rows[j].digest ==> i == j)
    && (forall r, i :: r in s.calls && s.calls[r].phase.Inserted? && i in s.rows ==>
          s.rows[i].digest != s.calls[r].digest)
    && (forall q, r :: q in s.calls && r in s.calls && q != r ==>
          !(s.calls[q].phase.Inserted? && s.calls[r].phase.Inserted? && s.calls[q].digest == s.calls[r].digest))
  }

  /** A duplicate verdict, from the throw to the answer. */
  ghost predicate SaysDuplicate(c: Call) {
    || c.phase == RollingBack(409)
    || (c.phase.Responding? && c.phase.response.Error? && c.phase.response.code == 409)
    || (c.answer.Some? && c.answer.value.Error? && c.answer.value.code == 409)
  }

  ghost predicate DuplicatesOk(s: State) {
    forall r :: r in s.calls && SaysDuplicate(s.calls[r]) ==> Taken(s, s.calls[r].digest)
  }

  ghost predicate Author(s: State, id: nat, n: nat) {
    id in s.rows && s.rows[id].author in s.calls && s.calls[s.rows[id].author].reached >= n
  }

  ghost predicate CrmOk(s: State) {
    forall id :: id in s.crmJobs <==> Author(s, id, 2)
  }

  ghost predicate MailOk(s: State) {
    && (forall e :: e in s.emails ==> Author(s, e.enquiryId, 3) && e.to == s.rows[e.enquiryId].content.email)
    && (forall id :: Author(s, id, 3) ==> EmailJob(id, s.rows[id].content.email) in s.emails)
    && (forall i, j :: 0 <= i < j < |s.emails| ==> s.emails[i].enquiryId != s.emails[j].enquiryId)
  }

  function AtLeast(calls: map<nat, Call>, n: nat): set<nat> {
    set r | r in calls && calls[r].reached >= n
  }

  function Between(calls: map<nat, Call>, n: nat): set<nat> {
    set r | r in calls && calls[r].reached == n
  }

  ghost predicate CountsOk(s: State) {
    && |s.rows| == |AtLeast(s.calls, 1)|
    && |s.crmJobs| == |AtLeast(s.calls, 2)|
    && |s.emails| == |AtLeast(s.calls, 3)|
    && s.created == |AtLeast(s.calls, 4)|
  }

  /** Every stored value under a key is the answer of the call that wrote it, and that
      call was made under this key. */
  ghost predicate KeysOk(s: State) {
    forall k :: k in s.idem ==>
      var e := s.idem[k];
      && e.owner in s.calls && s.calls[e.owner].key == Some(k) && s.calls[e.owner].claimedAt.Some?
      && (e.slot.Completed? ==> s.calls[e.owner].answer == Some(e.slot.response))
  }

  ghost predicate Inv(s: State) {
    CallsOk(s) && RowsOk(s) && IdsOk(s) && UniqueOk(s) && DuplicatesOk(s) && CrmOk(s) && MailOk(s) &&
    CountsOk(s) && KeysOk(s) && DigestsOk(s)
  }

  lemma CallOfInv(s: State, r: nat)
    requires Inv(s) && r in s.calls
    ensures LocalOk(r, s.calls[r])
  {
    hide LocalOk, RowsOk, IdsOk, UniqueOk, DuplicatesOk, CrmOk, MailOk, KeysOk, DigestsOk, CountsOk;
  }

  // -------------------------------------------------------------- preservation

  /** What one action may change: calls never disappear, a call keeps its request, rows
      and answers are permanent, and progress never goes back. */
  ghost predicate Grows(s: State, t: State) {
    && s.now <= t.now
    && (forall id :: id in s.rows ==> id in t.rows && t.rows[id] == s.rows[id])
    && (forall r :: r in s.calls ==> r in t.calls && CallGrows(s.calls[r], t.calls[r]))
    && s.crmJobs <= t.crmJobs && s.emails <= t.emails && s.nextId <= t.nextId
  }

  ghost predicate CallGrows(c: Call, d: Call) {
    && d.key == c.key && d.body == c.body && d.digest == c.digest && d.reached >= c.reached
    && (c.row.Some? ==> d.row == c.row)
    && (c.answer.Some? ==> d.answer == c.answer)
    && (c.claimedAt.Some? ==> d.claimedAt == c.claimedAt)
    && (c.storedAt.Some? ==> d.storedAt == c.storedAt)
  }

  // ------------------------------------------------------ the shape of a step

  /** Only the record of call r changes, and it only gains. */
  ghost predicate Frame(s: State, t: State, r: nat) {
    && r in s.calls && r in t.calls
    && t.calls == s.calls[r := t.calls[r]]
    && CallGrows(s.calls[r], t.calls[r])
    && t.now == s.now
  }

  ghost predicate RowEffect(s: State, t: State, r: nat)
    requires r in s.calls && r in t.calls
  {
    var c, d := s.calls[r], t.calls[r];
    || (t.rows == s.rows && d.row == c.row && (d.reached >= 1 <==> c.reached >= 1))
    || (c.phase.Inserted? && c.body.Some? && c.reached == 0 && d.reached == 1
        && d.row == Some(c.phase.id) && HeldId(d.phase).None?
        && t.rows == s.rows[c.phase.id := Row(c.digest, c.body.value, r)])
  }

  ghost predicate CrmEffect(s: State, t: State, r: nat)
    requires r in s.calls && r in t.calls
  {
    var c, d := s.calls[r], t.calls[r];
    || (t.crmJobs == s.crmJobs && (d.reached >= 2 <==> c.reached >= 2))
    || (c.row.Some? && c.reached == 1 && d.reached == 2 && t.crmJobs == s.crmJobs + {c.row.value})
  }

  ghost predicate MailEffect(s: State, t: State, r: nat)
    requires r in s.calls && r in t.calls
  {
    var c, d := s.calls[r], t.calls[r];
    || (t.emails == s.emails && (d.reached >= 3 <==> c.reached >= 3))
    || (c.row.Some? && c.body.Some? && c.reached == 2 && d.reached == 3
        && t.emails == s.emails + [EmailJob(c.row.value, c.body.value.email)])
  }

  ghost predicate CountEffect(s: State, t: State, r: nat)
    requires r in s.calls && r in t.calls
  {
    var c, d := s.calls[r], t.calls[r];
    || (t.created == s.created && (d.reached >= 4 <==> c.reached >= 4))
    || (c.reached == 3 && d.reached == 4 && t.created == s.created + 1)
  }

  ghost predicate IdEffect(s: State, t: State, r: nat)
    requires r in s.calls && r in t.calls
  {
    var c, d := s.calls[r], t.calls[r];
    && s.nextId <= t.nextId
    && (HeldId(d.phase) == None || HeldId(d.phase) == HeldId(c.phase)
        || (HeldId(d.phase) == Some(s.nextId) && t.nextId == s.nextId + 1))
    && (d.phase.Inserted? ==> !Taken(s, c.digest) && !Blocked(s, r))
    && (SaysDuplicate(d) ==> SaysDuplicate(c) || Taken(s, c.digest))
  }

  ghost predicate KeyEffect(s: State, t: State, r: nat)
    requires r in s.calls && r in t.calls
  {
    var c, d := s.calls[r], t.calls[r];
    || (t.idem == s.idem && d.claimedAt == c.claimedAt && d.storedAt == c.storedAt)
    || (c.key.Some? && !Live(s, c.key.value) && c.claimedAt.None? && d.claimedAt == Some(s.now)
        && d.storedAt == c.storedAt && d.answer == c.answer
        && t.idem == s.idem[c.key.value := Entry(Processing, s.now + KEY_TTL, r)])
    || (c.phase.Storing? && d.phase.Finished? && c.key.Some? && c.answer.Some? && d.answer == c.answer
        && d.claimedAt == c.claimedAt && d.storedAt == Some(s.now)
        && t.idem == s.idem[c.key.value := Entry(Completed(c.answer.value), s.now + KEY_TTL, r)])
  }

  /** The effect of one call's action: its own record, and at most one item of each kind
      of shared state in step with it. */
  ghost predicate Delta(s: State, t: State, r: nat) {
    && Frame(s, t, r)
    && RowEffect(s, t, r) && CrmEffect(s, t, r) && MailEffect(s, t, r)
    && CountEffect(s, t, r) && IdEffect(s, t, r) && KeyEffect(s, t, r)
  }

  lemma KeyDelta(s: State, r: nat, op: KeyOp)
    requires r in s.calls && LocalOk(r, s.calls[r]) && KeyEnabled(s.calls[r], op)
    ensures Delta(s, PerformKey(s, r, op), r)
  {}

  lemma TxnDelta(s: State, r: nat, op: TxnOp)
    requires r in s.calls && LocalOk(r, s.calls[r]) && TxnEnabled(s.calls[r], op)
    requires op.PassUnique? ==> !Blocked(s, r)
    ensures Delta(s, PerformTxn(s, r, op), r)
  {}

  lemma WorkDelta(s: State, r: nat, op: WorkOp)
    requires r in s.calls && LocalOk(r, s.calls[r]) && WorkEnabled(s.calls[r], op)
    ensures Delta(s, PerformWork(s, r, op), r)
  {}

  lemma PerformDelta(s: State, r: nat, op: Op)
    requires r in s.calls && LocalOk(r, s.calls[r]) && OpEnabled(s, r, op)
    ensures Delta(s, Perform(s, r, op), r)
  {
    match op {
      case Key(k) => KeyDelta(s, r, k);
      case Txn(t) => TxnDelta(s, r, t);
      case Work(w) => WorkDelta(s, r, w);
      case _ =>
    }
  }

  // -------------------------------------------------------------- preservation

  lemma ClaimLocal(s: State, r: nat, op: KeyOp)
    requires r in s.calls && LocalOk(r, s.calls[r]) && KeyEnabled(s.calls[r], op)
    requires op.Enter? || op.EnterError? || op.LookUp? || op.LookUpError?
    ensures LocalOk(r, PerformKey(s, r, op).calls[r])
  {
    hide Truthful;
  }

  lemma AnswerLocal(s: State, r: nat, op: KeyOp)
    requires r in s.calls && LocalOk(r, s.calls[r]) && KeyEnabled(s.calls[r], op)
    requires op.Respond? || op.Store? || op.StoreError?
    ensures LocalOk(r, PerformKey(s, r, op).calls[r])
  {}

  lemma KeyLocal(s: State, r: nat, op: KeyOp)
    requires r in s.calls && LocalOk(r, s.calls[r]) && KeyEnabled(s.calls[r], op)
    ensures LocalOk(r, PerformKey(s, r, op).calls[r])
  {
    hide LocalOk, PerformKey;
    if op.Respond? || op.Store? || op.StoreError? { AnswerLocal(s, r, op); } else { ClaimLocal(s, r, op); }
  }

  lemma TxnLocal(s: State, r: nat, op: TxnOp)
    requires r in s.calls && LocalOk(r, s.calls[r]) && TxnEnabled(s.calls[r], op)
    ensures LocalOk(r, PerformTxn(s, r, op).calls[r])
  {}

  lemma WorkLocal(s: State, r: nat, op: WorkOp)
    requires r in s.calls && LocalOk(r, s.calls[r]) && WorkEnabled(s.calls[r], op)
    ensures LocalOk(r, PerformWork(s, r, op).calls[r])
  {}

  lemma PerformLocal(s: State, r: nat, op: Op)
    requires r in s.calls && LocalOk(r, s.calls[r]) && OpEnabled(s, r, op)
    ensures LocalOk(r, Perform(s, r, op).calls[r])
  {
    match op {
      case Key(k) => KeyLocal(s, r, k);
      case Txn(t) => TxnLocal(s, r, t);
      case Work(w) => WorkLocal(s, r, w);
      case _ =>
    }
  }

  lemma DigestsKept(s: State, t: State, r: nat)
    requires Frame(s, t, r) && DigestsOk(s)
    ensures DigestsOk(t)
  {}

  lemma RowsKept(s: State, t: State, r: nat)
    requires Frame(s, t, r) && RowEffect(s, t, r)
    requires RowsOk(s) && IdsOk(s) && LocalOk(r, s.calls[r])
    ensures RowsOk(t)
  {}

  lemma IdsKept(s: State, t: State, r: nat)
    requires Frame(s, t, r) && RowEffect(s, t, r) && IdEffect(s, t, r)
    requires IdsOk(s)
    ensures IdsOk(t)
  {}

  lemma UniqueKept(s: State, t: State, r: nat)
    requires Frame(s, t, r) && RowEffect(s, t, r) && IdEffect(s, t, r)
    requires UniqueOk(s)
    ensures UniqueOk(t)
  {}

  lemma DuplicatesKept(s: State, t: State, r: nat)
    requires Frame(s, t, r) && RowEffect(s, t, r) && IdEffect(s, t, r)
    requires DuplicatesOk(s) && IdsOk(s)
    ensures DuplicatesOk(t)
  {
    forall q | q in t.calls && SaysDuplicate(t.calls[q]) ensures Taken(t, t.calls[q].digest) {
      assert Taken(s, t.calls[q].digest);
      var id :| id in s.rows && s.rows[id].digest == t.calls[q].digest;
      assert id in t.rows && t.rows[id] == s.rows[id];
    }
  }

  /** Whose work has passed point n after the step. */
  lemma AuthorStep(s: State, t: State, r: nat, id: nat, n: nat)
    requires Frame(s, t, r) && RowEffect(s, t, r) && n >= 1
    requires RowsOk(s) && IdsOk(s) && LocalOk(r, s.calls[r])
    ensures Author(t, id, n) <==>
            Author(s, id, n) || (t.calls[r].row == Some(id) && t.calls[r].reached >= n)
  {}

  lemma CrmKept(s: State, t: State, r: nat)
    requires Frame(s, t, r) && RowEffect(s, t, r) && CrmEffect(s, t, r)
    requires RowsOk(s) && IdsOk(s) && LocalOk(r, s.calls[r]) && CrmOk(s)
    ensures CrmOk(t)
  {
    forall id ensures id in t.crmJobs <==> Author(t, id, 2) {
      AuthorStep(s, t, r, id, 2);
    }
  }

  lemma MailKept(s: State, t: State, r: nat)
    requires Frame(s, t, r) && RowEffect(s, t, r) && MailEffect(s, t, r)
    requires RowsOk(s) && IdsOk(s) && LocalOk(r, s.calls[r]) && MailOk(s)
    ensures MailOk(t)
  {
    forall e | e in t.emails
      ensures Author(t, e.enquiryId, 3) && e.to == t.rows[e.enquiryId].content.email
    {
      AuthorStep(s, t, r, e.enquiryId, 3);
    }
    forall id | Author(t, id, 3)
      ensures EmailJob(id, t.rows[id].content.email) in t.emails
    {
      AuthorStep(s, t, r, id, 3);
    }
    forall i, j | 0 <= i < j < |t.emails|
      ensures t.emails[i].enquiryId != t.emails[j].enquiryId
    {
      assert s.emails[i] in s.emails;
    }
  }

  lemma AtLeastStep(s: State, t: State, r: nat, n: nat)
    requires Frame(s, t, r)
    ensures AtLeast(t.calls, n) == AtLeast(s.calls, n) + (if t.calls[r].reached >= n then {r} else {})
  {}

  /** Call r joins the calls past point n exactly when the step takes it there. */
  lemma CountStep(s: State, t: State, r: nat, n: nat)
    requires Frame(s, t, r)
    ensures |AtLeast(t.calls, n)| == |AtLeast(s.calls, n)| +
              (if s.calls[r].reached < n <= t.calls[r].reached then 1 else 0)
  {
    AtLeastStep(s, t, r, n);
    if s.calls[r].reached < n {
      assert r !in AtLeast(s.calls, n);
    } else {
      assert r in AtLeast(s.calls, n);
      assert AtLeast(s.calls, n) + {r} == AtLeast(s.calls, n);
    }
  }

  lemma RowCount(s: State, t: State, r: nat)
    requires Frame(s, t, r) && RowEffect(s, t, r)
    requires s.calls[r].phase.Inserted? ==> s.calls[r].phase.id !in s.rows
    ensures |t.rows| == |s.rows| + (if s.calls[r].reached < 1 <= t.calls[r].reached then 1 else 0)
  {
    if s.calls[r].reached < 1 <= t.calls[r].reached {
      assert t.rows.Keys == s.rows.Keys + {s.calls[r].phase.id};
      assert |t.rows| == |t.rows.Keys| && |s.rows| == |s.rows.Keys|;
    }
  }

  lemma CrmCount(s: State, t: State, r: nat)
    requires Frame(s, t, r) && CrmEffect(s, t, r)
    requires RowsOk(s) && CrmOk(s)
    ensures |t.crmJobs| == |s.crmJobs| + (if s.calls[r].reached < 2 <= t.calls[r].reached then 1 else 0)
  {
    if s.calls[r].reached < 2 <= t.calls[r].reached {
      assert !Author(s, s.calls[r].row.value, 2);
    }
  }

  lemma CountsKept(s: State, t: State, r: nat)
    requires Frame(s, t, r) && RowEffect(s, t, r) && CrmEffect(s, t, r) && MailEffect(s, t, r)
    requires CountEffect(s, t, r)
    requires RowsOk(s) && CrmOk(s) && CountsOk(s)
    requires s.calls[r].phase.Inserted? ==> s.calls[r].phase.id !in s.rows
    ensures CountsOk(t)
  {
    hide RowsOk, CrmOk, AtLeast;
    RowCount(s, t, r);
    CrmCount(s, t, r);
    CountStep(s, t, r, 1);
    CountStep(s, t, r, 2);
    CountStep(s, t, r, 3);
    CountStep(s, t, r, 4);
  }

  lemma KeysKept(s: State, t: State, r: nat)
    requires Frame(s, t, r) && KeyEffect(s, t, r) && KeysOk(s) && LocalOk(r, s.calls[r])
    ensures KeysOk(t)
  {}

  lemma CallsKept(s: State, r: nat, op: Op)
    requires CallsOk(s) && r in s.calls && OpEnabled(s, r, op)
    requires Frame(s, Perform(s, r, op), r)
    ensures CallsOk(Perform(s, r, op))
  {
    PerformLocal(s, r, op);
  }

  /** The ten invariants together survive an action of a call. */
  lemma PerformKept(s: State, r: nat, op: Op)
    requires Inv(s) && r in s.calls && OpEnabled(s, r, op)
    ensures Delta(s, Perform(s, r, op), r) && Inv(Perform(s, r, op))
  {
    hide LocalOk, Perform, RowEffect, CrmEffect, MailEffect, CountEffect, IdEffect, KeyEffect,
         RowsOk, UniqueOk, DuplicatesOk, CrmOk, MailOk, CountsOk, KeysOk, DigestsOk;
    var t := Perform(s, r, op);
    assert LocalOk(r, s.calls[r]);
    PerformDelta(s, r, op);
    assert s.calls[r].phase.Inserted? ==> s.calls[r].phase.id !in s.rows;
    CallsKept(s, r, op);
    DigestsKept(s, t, r);
    RowsKept(s, t, r);
    IdsKept(s, t, r);
    UniqueKept(s, t, r);
    DuplicatesKept(s, t, r);
    CrmKept(s, t, r);
    MailKept(s, t, r);
    CountsKept(s, t, r);
    KeysKept(s, t, r);
  }

  /** States that differ only in the clock and the published properties. */
  ghost predicate SameWork(s: State, t: State) {
    t == s.(now := t.now, published := t.published)
  }

  lemma TablesUnmoved(s: State, t: State)
    requires SameWork(s, t)
    requires RowsOk(s) && IdsOk(s) && UniqueOk(s)
    ensures RowsOk(t) && IdsOk(t) && UniqueOk(t)
  {}

  lemma WorkUnmoved(s: State, t: State)
    requires SameWork(s, t)
    requires DuplicatesOk(s) && CrmOk(s) && MailOk(s)
    ensures DuplicatesOk(t) && CrmOk(t) && MailOk(t)
  {
    assert forall d :: Taken(t, d) <==> Taken(s, d);
    assert forall id, n :: Author(t, id, n) <==> Author(s, id, n);
  }

  lemma EnvironmentKept(s: State, t: State)
    requires Inv(s) && SameWork(s, t)
    ensures Inv(t)
  {
    hide RowsOk, IdsOk, UniqueOk, DuplicatesOk, CrmOk, MailOk;
    TablesUnmoved(s, t);
    WorkUnmoved(s, t);
  }

  /** A state with one more call that has done nothing yet. */
  ghost predicate Arrival(s: State, t: State, r: nat) {
    && r !in s.calls && r in t.calls
    && t == s.(calls := s.calls[r := t.calls[r]])
    && t.calls[r].phase == Arrived && t.calls[r].reached == 0
    && LocalOk(r, t.calls[r])
  }

  lemma RowsArrive(s: State, t: State, r: nat)
    requires Arrival(s, t, r) && RowsOk(s)
    ensures RowsOk(t)
  {}

  lemma IdsArrive(s: State, t: State, r: nat)
    requires Arrival(s, t, r) && IdsOk(s)
    ensures IdsOk(t)
  {
    hide LocalOk;
  }

  lemma UniqueArrive(s: State, t: State, r: nat)
    requires Arrival(s, t, r) && UniqueOk(s)
    ensures UniqueOk(t)
  {
    hide LocalOk;
  }

  lemma TablesArrive(s: State, t: State, r: nat)
    requires Arrival(s, t, r) && RowsOk(s) && IdsOk(s) && UniqueOk(s)
    ensures RowsOk(t) && IdsOk(t) && UniqueOk(t)
  {
    hide Arrival, RowsOk, IdsOk, UniqueOk;
    RowsArrive(s, t, r);
    IdsArrive(s, t, r);
    UniqueArrive(s, t, r);
  }

  lemma WorkArrive(s: State, t: State, r: nat)
    requires Arrival(s, t, r) && RowsOk(s) && DuplicatesOk(s) && CrmOk(s) && MailOk(s)
    ensures DuplicatesOk(t) && CrmOk(t) && MailOk(t)
  {
    assert forall d :: Taken(t, d) <==> Taken(s, d);
    assert forall id, n :: n >= 1 ==> (Author(t, id, n) <==> Author(s, id, n));
  }

  lemma CountsArrive(s: State, t: State, r: nat)
    requires Arrival(s, t, r) && CountsOk(s)
    ensures CountsOk(t)
  {
    assert forall n :: n >= 1 ==> AtLeast(t.calls, n) == AtLeast(s.calls, n);
  }

  lemma ArriveKept(s: State, t: State, r: nat)
    requires Inv(s) && Arrival(s, t, r)
    requires t.calls[r].body.Some? ==>
      Validated(t.calls[r].body.value) && t.calls[r].digest == Fingerprint(t.calls[r].body.value)
    ensures Inv(t)
  {
    hide RowsOk, IdsOk, UniqueOk, DuplicatesOk, CrmOk, MailOk, CountsOk;
    TablesArrive(s, t, r);
    WorkArrive(s, t, r);
    CountsArrive(s, t, r);
  }

  /** Every action keeps the invariant. */
  lemma StepKept(s: State, a: Action)
    requires Inv(s) && Enabled(s, a)
    ensures Inv(Next(s, a))
  {
    hide Inv, Perform;
    match a {
      case Arrive(r, _, _, _) => ArriveKept(s, Next(s, a), r);
      case Do(r, op) => PerformKept(s, r, op);
      case _ => EnvironmentKept(s, Next(s, a));
    }
  }

  lemma DeltaGrows(s: State, t: State, r: nat)
    requires Delta(s, t, r) && (s.calls[r].phase.Inserted? ==> s.calls[r].phase.id !in s.rows)
    ensures Grows(s, t)
  {}

  lemma StepGrows(s: State, a: Action)
    requires Inv(s) && Enabled(s, a)
    ensures Grows(s, Next(s, a))
  {
    match a {
      case Do(r, op) =>
        hide Perform, CallsOk, RowsOk, UniqueOk, DuplicatesOk, CrmOk, MailOk, CountsOk, KeysOk, DigestsOk,
             Delta, Grows;
        PerformKept(s, r, op);
        DeltaGrows(s, Next(s, a), r);
      case _ =>
        hide Perform, CallsOk, RowsOk, UniqueOk, DuplicatesOk, CrmOk, MailOk, CountsOk, KeysOk, DigestsOk;
    }
  }

  // ---------------------------------------------------------------- whole runs

  lemma {:induction false} RunInv(tr: seq<State>, acts: seq<Action>, i: nat)
    requires Run(tr, acts) && i < |tr|
    ensures Inv(tr[i])
  {
    if i == 0 {
      assert AtLeast(tr[0].calls, 1) == {} && AtLeast(tr[0].calls, 2) == {};
      assert AtLeast(tr[0].calls, 3) == {} && AtLeast(tr[0].calls, 4) == {};
    } else {
      RunInv(tr, acts, i - 1);
      StepKept(tr[i - 1], acts[i - 1]);
    }
  }

  lemma {:induction false} RunGrows(tr: seq<State>, acts: seq<Action>, i: nat, j: nat)
    requires Run(tr, acts) && i <= j < |tr|
    ensures Grows(tr[i], tr[j])
  {
    hide Inv, Grows, Next, Enabled;
    if i == j {
      SelfGrows(tr[i]);
    } else {
      RunGrows(tr, acts, i, j - 1);
      RunInv(tr, acts, j - 1);
      StepGrows(tr[j - 1], acts[j - 1]);
      GrowsTransitive(tr[i], tr[j - 1], tr[j]);
    }
  }

  lemma SelfGrows(s: State)
    ensures Grows(s, s)
  {}

  lemma GrowsTransitive(s: State, t: State, u: State)
    requires Grows(s, t) && Grows(t, u)
    ensures Grows(s, u)
  {}
}
