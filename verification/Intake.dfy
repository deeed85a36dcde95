/** Enquiry intake as a protocol: POST /api/enquiry handled by many concurrent calls on
    many processes over one Redis, one MySQL and two queues. A call is cut at its awaits,
    so one action is one effect on shared state; any interleaving of actions is a run.

      idempotencyMiddleware   src/middleware/idempotency.ts
      createEnquiry           src/services/enquiry.service.ts
      withTransaction         src/config/db.ts
      the enquiries table     migrations/001_init.sql */
module Intake {
  import opened Wrappers
  import opened Hash

  /** IDEMPOTENCY_TTL_SECONDS. */
  const KEY_TTL: nat := 24 * 60 * 60

  // -------------------------------------------------------------------- values

  /** What a call answers: the 201 body, or a status code with the request id that every
      error body carries. */
  datatype Response = Created(id: nat, content: EnquiryInput) | Error(code: nat, requestId: nat)

  datatype Slot = Processing | Completed(response: Response)

  /** An idempotency key in Redis. `owner` is a history variable: the call whose SET
      wrote the value. */
  datatype Entry = Entry(slot: Slot, expiresAt: nat, owner: nat)

  /** A committed row of the enquiries table; `author` is a history variable. */
  datatype Row = Row(digest: Digest, content: EnquiryInput, author: nat)

  datatype EmailJob = EmailJob(enquiryId: nat, to: string)

  datatype Phase =
    | Arrived                    // before the middleware
    | ClaimLost                  // SET NX answered null, GET not sent yet
    | Admitted                   // next() called
    | InTxn                      // property found, INSERT not sent yet
    | Inserting(id: nat)         // id drawn, unique index not passed yet
    | Inserted(id: nat)          // holds the uncommitted row
    | RollingBack(code: nat)     // an error was thrown inside the transaction
    | Committed                  // row visible, nothing queued
    | CrmQueued
    | EmailQueued
    | Responding(response: Response)
    | Storing                    // answered; the unawaited SET is under way
    | Finished
    | Refused(owner: nat, at: nat)  // key still processing
    | Replayed(response: Response, owner: nat, at: nat)
    | Faulted                    // the middleware rejected and never called next()
    | Crashed

  /** `reached` counts the work-creating points passed: row, CRM job, email, counter. */
  datatype Call = Call(key: Option<string>, body: Option<EnquiryInput>, digest: Digest,
                       phase: Phase, reached: nat, row: Option<nat>,
                       claimedAt: Option<nat>, storedAt: Option<nat>, answer: Option<Response>)

  datatype State = State(now: nat, idem: map<string, Entry>, published: set<nat>,
                         nextId: nat, rows: map<nat, Row>,
                         crmJobs: set<nat>, emails: seq<EmailJob>,
                         created: nat, duplicates: nat, calls: map<nat, Call>)

  const EMPTY := State(0, map[], {}, 1, map[], {}, [], 0, 0, map[])

  // ------------------------------------------------------------------- actions

  /** Effects of the idempotency middleware. An `applied` flag, here and below, says
      whether a command whose reply was lost took effect before the error. */
  datatype KeyOp =
    | Enter                      // no key: next(); else SET NX
    | EnterError(applied: bool)
    | LookUp                     // GET after a lost claim
    | LookUpError
    | Respond                    // res.json: answers, and starts the SET when keyed
    | Store                      // the SET lands
    | StoreError

  /** Effects inside withTransaction. */
  datatype TxnOp =
    | Begin                      // getConnection, beginTransaction, SELECT property
    | BeginError                 // no connection was obtained
    | DrawId                     // INSERT sent: an auto-increment id is consumed
    | PassUnique                 // the unique index decides
    | DbError
    | Rollback(ok: bool)
    | Commit
    | CommitError(applied: bool)

  /** Effects of createEnquiry after the commit. */
  datatype WorkOp =
    | AddCrm
    | AddCrmError(applied: bool)
    | AddEmail
    | AddEmailError(applied: bool)
    | Count

  datatype Op =
    | Key(k: KeyOp)
    | RejectBody                 // createEnquirySchema fails
    | Txn(t: TxnOp)
    | Work(w: WorkOp)
    | Crash

  datatype Action =
    | Arrive(r: nat, path: string, header: Option<string>, body: Option<EnquiryInput>)
    | Do(call: nat, op: Op)
    | Tick(seconds: nat)
    | Publish(property: nat)
    | Unpublish(property: nat)

  /** An absent or empty Idempotency-Key header means no key. */
  function RedisKey(path: string, header: Option<string>): Option<string> {
    if header.None? || header.value == "" then None
    else Some("idempotency:" + path + ":" + header.value)
  }

  predicate Live(s: State, k: string) {
    k in s.idem && s.now < s.idem[k].expiresAt
  }

  predicate InTransaction(p: Phase) {
    p.InTxn? || p.Inserting? || p.Inserted?
  }

  predicate Over(p: Phase) {
    p.Finished? || p.Refused? || p.Replayed? || p.Faulted? || p.Crashed?
  }

  /** The fingerprint is committed. */
  predicate Taken(s: State, d: Digest) {
    exists id :: id in s.rows && s.rows[id].digest == d
  }

  /** An INSERT waits while another open transaction holds the same fingerprint. */
  predicate Blocked(s: State, r: nat)
    requires r in s.calls
  {
    exists q :: q in s.calls && q != r && s.calls[q].phase.Inserted? &&
                s.calls[q].digest == s.calls[r].digest
  }

  predicate Enabled(s: State, a: Action) {
    match a
    case Arrive(r, _, _, body) => r !in s.calls && (body.Some? ==> Validated(body.value))
    case Do(r, op) => r in s.calls && OpEnabled(s, r, op)
    case Tick(_) => true
    case Publish(_) => true
    case Unpublish(_) => true
  }

  predicate OpEnabled(s: State, r: nat, op: Op)
    requires r in s.calls
  {
    var c := s.calls[r];
    match op
    case Key(k) => KeyEnabled(c, k)
    case RejectBody => c.phase.Admitted? && c.body.None?
    case Txn(t) => TxnEnabled(c, t) && (t.PassUnique? ==> !Blocked(s, r))
    case Work(w) => WorkEnabled(c, w)
    case Crash => !Over(c.phase)
  }

  predicate KeyEnabled(c: Call, op: KeyOp) {
    match op
    case Enter => c.phase.Arrived?
    case EnterError(_) => c.phase.Arrived? && c.key.Some?
    case LookUp => c.phase.ClaimLost? && c.key.Some?
    case LookUpError => c.phase.ClaimLost?
    case Respond => c.phase.Responding?
    case Store => c.phase.Storing? && c.key.Some? && c.answer.Some?
    case StoreError => c.phase.Storing?
  }

  predicate TxnEnabled(c: Call, op: TxnOp) {
    && c.body.Some?
    && match op
       case Begin => c.phase.Admitted?
       case BeginError => c.phase.Admitted?
       case DrawId => c.phase.InTxn?
       case PassUnique => c.phase.Inserting?
       case DbError => InTransaction(c.phase)
       case Rollback(_) => c.phase.RollingBack?
       case Commit => c.phase.Inserted?
       case CommitError(_) => c.phase.Inserted?
  }

  predicate WorkEnabled(c: Call, op: WorkOp) {
    && c.row.Some? && c.body.Some?
    && match op
       case AddCrm => c.phase.Committed?
       case AddCrmError(_) => c.phase.Committed?
       case AddEmail => c.phase.CrmQueued?
       case AddEmailError(_) => c.phase.CrmQueued?
       case Count => c.phase.EmailQueued?
  }

  function Next(s: State, a: Action): State
    requires Enabled(s, a)
  {
    match a
    case Arrive(r, path, header, body) =>
      var digest := if body.Some? then Fingerprint(body.value) else Sha256("");
      s.(calls := s.calls[r := Call(RedisKey(path, header), body, digest, Arrived, 0, None,
                                    None, None, None)])
    case Do(r, op) => Perform(s, r, op)
    case Tick(d) => s.(now := s.now + d)
    case Publish(p) => s.(published := s.published + {p})
    case Unpublish(p) => s.(published := s.published - {p})
  }

  /** Replaces the record of call r. */
  function Put(s: State, r: nat, c: Call): State {
    s.(calls := s.calls[r := c])
  }

  function Claimed(s: State, r: nat): map<string, Entry>
    requires r in s.calls && s.calls[r].key.Some?
  {
    s.idem[s.calls[r].key.value := Entry(Processing, s.now + KEY_TTL, r)]
  }

  /** The row becomes visible. */
  function Insert(s: State, r: nat): State
    requires r in s.calls && s.calls[r].phase.Inserted? && s.calls[r].body.Some?
  {
    var c := s.calls[r];
    s.(rows := s.rows[c.phase.id := Row(c.digest, c.body.value, r)],
       calls := s.calls[r := c.(row := Some(c.phase.id), reached := 1)])
  }

  function QueueCrm(s: State, r: nat): State
    requires r in s.calls && s.calls[r].row.Some?
  {
    var c := s.calls[r];
    s.(crmJobs := s.crmJobs + {c.row.value}, calls := s.calls[r := c.(reached := 2)])
  }

  function QueueEmail(s: State, r: nat): State
    requires r in s.calls && s.calls[r].row.Some? && s.calls[r].body.Some?
  {
    var c := s.calls[r];
    s.(emails := s.emails + [EmailJob(c.row.value, c.body.value.email)],
       calls := s.calls[r := c.(reached := 3)])
  }

  function SetPhase(s: State, r: nat, p: Phase): State
    requires r in s.calls
  {
    Put(s, r, s.calls[r].(phase := p))
  }

  function Perform(s: State, r: nat, op: Op): State
    requires r in s.calls && OpEnabled(s, r, op)
  {
    match op
    case Key(k) => PerformKey(s, r, k)
    case RejectBody => SetPhase(s, r, Responding(Error(400, r)))
    case Txn(t) => PerformTxn(s, r, t)
    case Work(w) => PerformWork(s, r, w)
    case Crash => SetPhase(s, r, Crashed)
  }

  function PerformKey(s: State, r: nat, op: KeyOp): State
    requires r in s.calls && KeyEnabled(s.calls[r], op)
  {
    var c := s.calls[r];
    match op
    case Enter =>
      if c.key.None? then SetPhase(s, r, Admitted)
      else if Live(s, c.key.value) then SetPhase(s, r, ClaimLost)
      else Put(s, r, c.(phase := Admitted, claimedAt := Some(s.now))).(idem := Claimed(s, r))
    case EnterError(applied) =>
      if applied && !Live(s, c.key.value) then
        Put(s, r, c.(phase := Faulted, claimedAt := Some(s.now))).(idem := Claimed(s, r))
      else SetPhase(s, r, Faulted)
    case LookUp =>
      if !Live(s, c.key.value) then SetPhase(s, r, Faulted)
      else
        var e := s.idem[c.key.value];
        SetPhase(s, r, match e.slot
                       case Processing => Refused(e.owner, s.now)
                       case Completed(a) => Replayed(a, e.owner, s.now))
    case LookUpError => SetPhase(s, r, Faulted)
    case Respond =>
      Put(s, r, c.(phase := if c.key.Some? then Storing else Finished,
                   answer := Some(c.phase.response)))
    case Store =>
      Put(s, r, c.(phase := Finished, storedAt := Some(s.now)))
      .(idem := s.idem[c.key.value := Entry(Completed(c.answer.value), s.now + KEY_TTL, r)])
    case StoreError => SetPhase(s, r, Finished)
  }

  function PerformTxn(s: State, r: nat, op: TxnOp): State
    requires r in s.calls && TxnEnabled(s.calls[r], op)
  {
    var c := s.calls[r];
    match op
    case Begin =>
      SetPhase(s, r, if c.body.value.propertyId in s.published then InTxn else RollingBack(404))
    case BeginError => SetPhase(s, r, Responding(Error(500, r)))
    case DrawId => SetPhase(s, r, Inserting(s.nextId)).(nextId := s.nextId + 1)
    case PassUnique =>
      SetPhase(s, r, if Taken(s, c.digest) then RollingBack(409) else Inserted(c.phase.id))
    case DbError => SetPhase(s, r, RollingBack(500))
    case Rollback(ok) =>
      var code := if ok then c.phase.code else 500;
      SetPhase(s, r, Responding(Error(code, r)))
      .(duplicates := s.duplicates + (if code == 409 then 1 else 0))
    case Commit => SetPhase(Insert(s, r), r, Committed)
    case CommitError(applied) => SetPhase(if applied then Insert(s, r) else s, r, RollingBack(500))
  }

  function PerformWork(s: State, r: nat, op: WorkOp): State
    requires r in s.calls && WorkEnabled(s.calls[r], op)
  {
    var c := s.calls[r];
    match op
    case AddCrm => SetPhase(QueueCrm(s, r), r, CrmQueued)
    case AddCrmError(applied) =>
      SetPhase(if applied then QueueCrm(s, r) else s, r, Responding(Error(500, r)))
    case AddEmail => SetPhase(QueueEmail(s, r), r, EmailQueued)
    case AddEmailError(applied) =>
      SetPhase(if applied then QueueEmail(s, r) else s, r, Responding(Error(500, r)))
    case Count =>
      Put(s, r, c.(phase := Responding(Created(c.row.value, c.body.value)), reached := 4))
      .(created := s.created + 1)
  }

  // ---------------------------------------------------------------------- runs

  /** A run: the states it passes through and the actions between them. */
  ghost predicate Run(tr: seq<State>, acts: seq<Action>) {
    && |tr| == |acts| + 1
    && tr[0] == EMPTY
    && forall i :: 0 <= i < |acts| ==> Enabled(tr[i], acts[i]) && tr[i + 1] == Next(tr[i], acts[i])
  }
}
