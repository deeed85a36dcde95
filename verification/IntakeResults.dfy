/** The promises of enquiry creation, for every run of the intake protocol. */
module IntakeResults {
  import opened Wrappers
  import opened Hash
  import opened Intake
  import opened IntakeSafety

  // ------------------------------------------------------ one enquiry, one row

  /** Two committed rows are the same enquiry only when they are the same row. */
  lemma OneRowPerEnquiry(tr: seq<State>, acts: seq<Action>, n: nat, i: nat, j: nat)
    requires Run(tr, acts) && n < |tr| && i in tr[n].rows && j in tr[n].rows
    ensures SameEnquiry(tr[n].rows[i].content, tr[n].rows[j].content) <==> i == j
  {
    var s := tr[n];
    hide Run, Fingerprint, SameEnquiry, LocalOk, UniqueOk, CrmOk, MailOk, CountsOk, DuplicatesOk;
    RunInv(tr, acts, n);
    var a, b := s.rows[i], s.rows[j];
    FingerprintEquivalence(a.content, b.content);
    assert a.digest == Fingerprint(a.content) && b.digest == Fingerprint(b.content);
    if a.digest == b.digest { UniqueDigests(s, i, j); }
  }

  lemma UniqueDigests(s: State, i: nat, j: nat)
    requires UniqueOk(s) && i in s.rows && j in s.rows && s.rows[i].digest == s.rows[j].digest
    ensures i == j
  {}

  /** A 201 names a committed row that this very call inserted from its own body. */
  lemma CreatedIsOwn(tr: seq<State>, acts: seq<Action>, n: nat, r: nat)
    requires Run(tr, acts) && n < |tr| && r in tr[n].calls
    requires tr[n].calls[r].answer.Some? && tr[n].calls[r].answer.value.Created?
    ensures var a := tr[n].calls[r].answer.value;
            a.id in tr[n].rows && tr[n].rows[a.id].author == r && tr[n].rows[a.id].content == a.content
            && tr[n].calls[r].body == Some(a.content)
  {
    var s := tr[n];
    hide Run, IdsOk, UniqueOk, CrmOk, MailOk, CountsOk, DuplicatesOk, KeysOk, DigestsOk;
    RunInv(tr, acts, n);
    CallOfInv(s, r);
  }

  /** At most one call per enquiry ever answers 201: whoever does is the author of the
      only row, so a second submission gets none even if the first crashed. */
  lemma AtMostOneCreated(tr: seq<State>, acts: seq<Action>, n: nat, q: nat, r: nat)
    requires Run(tr, acts) && n < |tr| && q in tr[n].calls && r in tr[n].calls
    requires tr[n].calls[q].row.Some? && tr[n].calls[q].body.Some?
    requires tr[n].calls[r].answer.Some? && tr[n].calls[r].answer.value.Created?
    requires SameEnquiry(tr[n].calls[q].body.value, tr[n].calls[r].answer.value.content)
    ensures q == r
  {
    var s := tr[n];
    hide Run, SameEnquiry, UniqueOk, CrmOk, MailOk, CountsOk, DuplicatesOk, KeysOk, DigestsOk, LocalOk, IdsOk;
    RunInv(tr, acts, n);
    CreatedIsOwn(tr, acts, n, r);
    OneRowPerEnquiry(tr, acts, n, s.calls[q].row.value, s.calls[r].answer.value.id);
  }

  /** From the throw of ER_DUP_ENTRY to the 409 answer, another call's row with the same
      enquiry is committed. */
  lemma DuplicateOnlyIfCommitted(tr: seq<State>, acts: seq<Action>, n: nat, r: nat)
    requires Run(tr, acts) && n < |tr| && r in tr[n].calls && SaysDuplicate(tr[n].calls[r])
    ensures tr[n].calls[r].body.Some?
    ensures exists id :: id in tr[n].rows && tr[n].rows[id].author != r &&
                         SameEnquiry(tr[n].rows[id].content, tr[n].calls[r].body.value)
  {
    hide Run, Inv;
    RunInv(tr, acts, n);
    DuplicateInState(tr[n], r);
  }

  lemma DuplicateInState(s: State, r: nat)
    requires Inv(s) && r in s.calls && SaysDuplicate(s.calls[r])
    ensures s.calls[r].body.Some?
    ensures exists id :: id in s.rows && s.rows[id].author != r &&
                         SameEnquiry(s.rows[id].content, s.calls[r].body.value)
  {
    hide Fingerprint, SameEnquiry, UniqueOk, CrmOk, MailOk, CountsOk, KeysOk, IdsOk;
    var c := s.calls[r];
    assert LocalOk(r, c);
    var id :| id in s.rows && s.rows[id].digest == c.digest;
    FingerprintEquivalence(s.rows[id].content, c.body.value);
  }

  // ------------------------------------------- refinement of a sequential map

  /** What a client of a sequential registry of enquiries would see. */
  datatype Event =
    | Registered(call: nat, digest: Digest, id: nat)
    | Accepted(call: nat, digest: Digest, id: nat)
    | Rejected(call: nat, digest: Digest)

  /** From fingerprint to the id of the first committed enquiry and the call that put it
      there. */
  type Registry = map<Digest, (nat, nat)>

  predicate Allowed(m: Registry, e: Event) {
    match e
    case Registered(call, d, id) => d !in m && forall x :: x in m ==> m[x].0 != id && m[x].1 != call
    case Accepted(call, d, id) => d in m && m[d] == (id, call)
    case Rejected(call, d) => d in m && m[d].1 != call
  }

  function Apply(m: Registry, e: Event): Registry {
    if e.Registered? then m[e.digest := (e.id, e.call)] else m
  }

  predicate Legal(m: Registry, es: seq<Event>)
    decreases |es|
  {
    es == [] || (Allowed(m, es[0]) && Legal(Apply(m, es[0]), es[1..]))
  }

  function ApplyAll(m: Registry, es: seq<Event>): Registry
    decreases |es|
  {
    if es == [] then m else ApplyAll(Apply(m, es[0]), es[1..])
  }

  /** The visible events of one protocol action: at most one. */
  ghost function EventsOf(s: State, a: Action): seq<Event>
    requires Enabled(s, a)
  {
    match a
    case Do(r, Txn(PassUnique)) =>
      if Taken(s, s.calls[r].digest) then [Rejected(r, s.calls[r].digest)] else []
    case Do(r, Txn(Commit)) => [Registered(r, s.calls[r].digest, s.calls[r].phase.id)]
    case Do(r, Txn(CommitError(applied))) =>
      if applied then [Registered(r, s.calls[r].digest, s.calls[r].phase.id)] else []
    case Do(r, Work(Count)) => [Accepted(r, s.calls[r].digest, s.calls[r].row.value)]
    case _ => []
  }

  ghost function History(tr: seq<State>, acts: seq<Action>, n: nat): seq<Event>
    requires Run(tr, acts) && n <= |acts|
  {
    if n == 0 then [] else History(tr, acts, n - 1) + EventsOf(tr[n - 1], acts[n - 1])
  }

  /** The registry that the committed rows make up. */
  ghost predicate Represents(m: Registry, s: State) {
    && (forall id :: id in s.rows ==>
          s.rows[id].digest in m && m[s.rows[id].digest] == (id, s.rows[id].author))
    && (forall d :: d in m ==> m[d].0 in s.rows && s.rows[m[d].0].digest == d)
  }

  lemma InsertRepresented(m: Registry, s: State, t: State, id: nat, w: Row)
    requires Represents(m, s) && id !in s.rows && t.rows == s.rows[id := w] && !Taken(s, w.digest)
    ensures w.digest !in m && Represents(m[w.digest := (id, w.author)], t)
  {}

  lemma InsertRefines(m: Registry, s: State, t: State, r: nat)
    requires Represents(m, s) && RowsOk(s) && IdsOk(s) && UniqueOk(s)
    requires r in s.calls && LocalOk(r, s.calls[r]) && s.calls[r].phase.Inserted? && s.calls[r].body.Some?
    requires t.rows == Insert(s, r).rows
    ensures var e := Registered(r, s.calls[r].digest, s.calls[r].phase.id);
            Allowed(m, e) && Represents(Apply(m, e), t)
  {
    var c := s.calls[r];
    assert !Taken(s, c.digest);
    InsertRepresented(m, s, t, c.phase.id, Row(c.digest, c.body.value, r));
  }

  lemma QuietKeepsRows(s: State, r: nat, op: Op)
    requires r in s.calls && OpEnabled(s, r, op) && EventsOf(s, Do(r, op)) == []
    ensures Perform(s, r, op).rows == s.rows
  {}

  lemma EventRefines(m: Registry, s: State, r: nat, op: Op)
    requires Represents(m, s) && RowsOk(s) && IdsOk(s) && UniqueOk(s)
    requires r in s.calls && LocalOk(r, s.calls[r]) && OpEnabled(s, r, op)
    requires EventsOf(s, Do(r, op)) != []
    ensures var es := EventsOf(s, Do(r, op));
            |es| == 1 && Allowed(m, es[0]) && Represents(Apply(m, es[0]), Perform(s, r, op))
  {
    hide UniqueOk, IdsOk;
    match op {
      case Txn(Commit) => InsertRefines(m, s, Perform(s, r, op), r);
      case Txn(CommitError(_)) => InsertRefines(m, s, Perform(s, r, op), r);
      case _ =>
    }
  }

  lemma SameRowsRepresented(m: Registry, s: State, t: State)
    requires Represents(m, s) && t.rows == s.rows
    ensures Legal(m, []) && Represents(ApplyAll(m, []), t)
  {}

  lemma OneEvent(m: Registry, es: seq<Event>)
    requires |es| == 1 && Allowed(m, es[0])
    ensures Legal(m, es) && ApplyAll(m, es) == Apply(m, es[0])
  {}

  /** One protocol action is one allowed registry event or none. */
  lemma StepRefines(m: Registry, s: State, a: Action)
    requires Represents(m, s) && Inv(s) && Enabled(s, a)
    ensures Legal(m, EventsOf(s, a)) && Represents(ApplyAll(m, EventsOf(s, a)), Next(s, a))
  {
    hide UniqueOk, CrmOk, MailOk, CountsOk, KeysOk, DigestsOk, DuplicatesOk, IdsOk, RowsOk, LocalOk,
         Perform, OpEnabled, Represents, Legal, ApplyAll, Allowed;
    if EventsOf(s, a) == [] {
      if a.Do? { QuietKeepsRows(s, a.call, a.op); }
      SameRowsRepresented(m, s, Next(s, a));
    } else {
      EventRefines(m, s, a.call, a.op);
      OneEvent(m, EventsOf(s, a));
    }
  }

  lemma {:induction false} LegalAppend(m: Registry, es: seq<Event>, fs: seq<Event>)
    requires Legal(m, es) && Legal(ApplyAll(m, es), fs)
    ensures Legal(m, es + fs) && ApplyAll(m, es + fs) == ApplyAll(ApplyAll(m, es), fs)
    decreases |es|
  {
    if es == [] {
      assert es + fs == fs;
    } else {
      assert (es + fs)[1..] == es[1..] + fs;
      LegalAppend(Apply(m, es[0]), es[1..], fs);
    }
  }

  /** Every run of the concurrent protocol looks like a run of the sequential registry:
      its events, in the order they happen, are allowed one after the other, and the
      committed rows are what they leave. */
  lemma {:induction false} RunRefinesRegistry(tr: seq<State>, acts: seq<Action>, n: nat)
    requires Run(tr, acts) && n <= |acts|
    ensures Legal(map[], History(tr, acts, n))
    ensures Represents(ApplyAll(map[], History(tr, acts, n)), tr[n])
  {
    hide Inv, EventsOf, Next, Enabled, Legal, ApplyAll;
    if n == 0 {
      NothingRegistered();
    } else {
      hide Represents;
      var before := History(tr, acts, n - 1);
      RunRefinesRegistry(tr, acts, n - 1);
      RunInv(tr, acts, n - 1);
      StepRefines(ApplyAll(map[], before), tr[n - 1], acts[n - 1]);
      LegalAppend(map[], before, EventsOf(tr[n - 1], acts[n - 1]));
    }
  }

  lemma NothingRegistered()
    ensures Legal(map[], []) && ApplyAll(map[], []) == map[] && Represents(map[], EMPTY)
  {}

  lemma {:induction false} RegistryOnlyGrows(m: Registry, es: seq<Event>, d: Digest)
    requires Legal(m, es) && d in m
    ensures d in ApplyAll(m, es) && ApplyAll(m, es)[d] == m[d]
    decreases |es|
  {
    if es != [] { RegistryOnlyGrows(Apply(m, es[0]), es[1..], d); }
  }

  lemma {:induction false} AcceptedInFinal(m: Registry, es: seq<Event>, i: nat)
    requires Legal(m, es) && i < |es| && !es[i].Rejected?
    ensures var f := ApplyAll(m, es);
            es[i].digest in f && f[es[i].digest] == (es[i].id, es[i].call)
    decreases |es|
  {
    if i == 0 {
      RegistryOnlyGrows(Apply(m, es[0]), es[1..], es[0].digest);
    } else {
      AcceptedInFinal(Apply(m, es[0]), es[1..], i - 1);
    }
  }

  /** So over a whole run one fingerprint is registered and accepted for one call only. */
  lemma OneCallPerFingerprint(tr: seq<State>, acts: seq<Action>, n: nat, i: nat, j: nat)
    requires Run(tr, acts) && n <= |acts|
    requires i < |History(tr, acts, n)| && j < |History(tr, acts, n)|
    requires var es := History(tr, acts, n);
             !es[i].Rejected? && !es[j].Rejected? && es[i].digest == es[j].digest
    ensures var es := History(tr, acts, n);
            es[i].call == es[j].call && es[i].id == es[j].id
  {
    RunRefinesRegistry(tr, acts, n);
    AcceptedInFinal(map[], History(tr, acts, n), i);
    AcceptedInFinal(map[], History(tr, acts, n), j);
  }

  // ---------------------------------------------------- the chain of work made

  /** Row, then CRM job, then email; each at most once per id. */
  lemma WorkChain(tr: seq<State>, acts: seq<Action>, n: nat)
    requires Run(tr, acts) && n < |tr|
    ensures forall e :: e in tr[n].emails ==> e.enquiryId in tr[n].crmJobs
    ensures forall id :: id in tr[n].crmJobs ==> id in tr[n].rows
    ensures forall i, j :: 0 <= i < j < |tr[n].emails| ==> tr[n].emails[i].enquiryId != tr[n].emails[j].enquiryId
    ensures forall r :: r in tr[n].calls && tr[n].calls[r].answer.Some? && tr[n].calls[r].answer.value.Created? ==>
              tr[n].calls[r].answer.value.id in tr[n].crmJobs &&
              EmailJob(tr[n].calls[r].answer.value.id, tr[n].calls[r].answer.value.content.email) in tr[n].emails
  {
    var s := tr[n];
    hide Run, UniqueOk, CountsOk, DuplicatesOk, KeysOk, DigestsOk, IdsOk;
    RunInv(tr, acts, n);
    forall e | e in s.emails ensures e.enquiryId in s.crmJobs {
      assert Author(s, e.enquiryId, 3) && Author(s, e.enquiryId, 2);
    }
    forall r | r in s.calls && s.calls[r].answer.Some? && s.calls[r].answer.value.Created?
      ensures s.calls[r].answer.value.id in s.crmJobs &&
              EmailJob(s.calls[r].answer.value.id, s.calls[r].answer.value.content.email) in s.emails
    {
      var a := s.calls[r].answer.value;
      CreatedIsOwn(tr, acts, n, r);
      assert LocalOk(r, s.calls[r]);
      assert Author(s, a.id, 2) && Author(s, a.id, 3);
    }
  }

  lemma SplitAtLeast(calls: map<nat, Call>, n: nat)
    ensures |AtLeast(calls, n)| == |Between(calls, n)| + |AtLeast(calls, n + 1)|
  {
    assert AtLeast(calls, n) == Between(calls, n) + AtLeast(calls, n + 1);
    assert Between(calls, n) !! AtLeast(calls, n + 1);
  }

  /** Conservation: each count exceeds the next by the number of calls that stopped, or
      are still, exactly between the two points. */
  lemma WorkConserved(tr: seq<State>, acts: seq<Action>, n: nat)
    requires Run(tr, acts) && n < |tr|
    ensures |tr[n].rows| == |tr[n].crmJobs| + |Between(tr[n].calls, 1)|
    ensures |tr[n].crmJobs| == |tr[n].emails| + |Between(tr[n].calls, 2)|
    ensures |tr[n].emails| == tr[n].created + |Between(tr[n].calls, 3)|
  {
    var s := tr[n];
    hide Run, CallsOk, RowsOk, IdsOk, UniqueOk, DuplicatesOk, CrmOk, MailOk, KeysOk, DigestsOk;
    RunInv(tr, acts, n);
    SplitAtLeast(s.calls, 1);
    SplitAtLeast(s.calls, 2);
    SplitAtLeast(s.calls, 3);
  }

  /** Who makes up a gap: the call in flight at that point, a call that failed there
      and answers 500, or a crashed call; never one that answers 201. */
  lemma GapMember(tr: seq<State>, acts: seq<Action>, n: nat, r: nat, point: nat)
    requires Run(tr, acts) && n < |tr| && 1 <= point <= 3 && r in Between(tr[n].calls, point)
    ensures var c := tr[n].calls[r];
            || (point == 1 && c.phase == Committed) || (point == 2 && c.phase == CrmQueued)
            || (point == 3 && c.phase == EmailQueued)
            || (point == 1 && c.phase == RollingBack(500))
            || c.phase == Responding(Error(500, r))
            || ((c.phase.Storing? || c.phase.Finished?) && c.answer == Some(Error(500, r)))
            || c.phase.Crashed?
  {
    hide Run, Inv;
    RunInv(tr, acts, n);
    CallOfInv(tr[n], r);
  }

  // ------------------------------------------------------ truthful stored 201s

  /** A stored 201 names a committed enquiry with both jobs queued, made under this key. */
  lemma StoredCreatedIsTrue(tr: seq<State>, acts: seq<Action>, n: nat, k: string)
    requires Run(tr, acts) && n < |tr| && k in tr[n].idem
    requires tr[n].idem[k].slot.Completed? && tr[n].idem[k].slot.response.Created?
    ensures var a := tr[n].idem[k].slot.response;
            && a.id in tr[n].rows && tr[n].rows[a.id].content == a.content
            && tr[n].rows[a.id].author in tr[n].calls && tr[n].calls[tr[n].rows[a.id].author].key == Some(k)
            && a.id in tr[n].crmJobs && EmailJob(a.id, a.content.email) in tr[n].emails
  {
    var s := tr[n];
    hide Run, IdsOk, UniqueOk, DuplicatesOk, CrmOk, MailOk, DigestsOk, CountsOk, LocalOk;
    RunInv(tr, acts, n);
    CreatedIsOwn(tr, acts, n, s.idem[k].owner);
    WorkChain(tr, acts, n);
  }

  /** No two keys ever hold a 201 for the same enquiry. */
  lemma StoredCreatedOncePerId(tr: seq<State>, acts: seq<Action>, n: nat, k: string, l: string)
    requires Run(tr, acts) && n < |tr| && k in tr[n].idem && l in tr[n].idem
    requires tr[n].idem[k].slot.Completed? && tr[n].idem[k].slot.response.Created?
    requires tr[n].idem[l].slot.Completed? && tr[n].idem[l].slot.response.Created?
    requires tr[n].idem[k].slot.response.id == tr[n].idem[l].slot.response.id
    ensures k == l
  {
    hide Run;
    StoredCreatedIsTrue(tr, acts, n, k);
    StoredCreatedIsTrue(tr, acts, n, l);
  }
}
