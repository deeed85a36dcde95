/** The two writers of an enquiry's CRM fields, the sync worker and the CRM's webhook,
    interleaved with each other and with the queue in any order. One action runs from one
    await to the next.

      markCrmSynced               src/services/enquiry.service.ts
      audit, apply, push          src/services/crm.service.ts
      crmWebhookHandler           src/controllers/webhook.controller.ts
      crm_webhook_events          migrations/001_init.sql */
module Crm {
  import opened Wrappers
  import opened Schema
  import opened JsonText
  import Strings = Text
  import Hash
  import Jobs

  /** Characters of the payload text that the audit insert keeps. */
  const PAYLOAD_LIMIT: nat := 60000

  /** Levels of nesting in a MySQL JSON document. */
  const NESTING_LIMIT: nat := 100

  datatype Row = Row(status: Status, record: Option<string>, syncedAt: Option<nat>)

  const FRESH := Row(New, None, None)

  datatype Event = LeadUpdated | LeadStatusChanged | ContactSynced

  /** A body that passed crmWebhookSchema; `payload` is its optional object of anything.
      `valid` is the verdict on the call's signature, and `storable` MySQL's on the strings
      in the body (key length, paired surrogates). */
  datatype Request = Request(event: Event, enquiryId: nat, record: string, status: Option<Status>,
                             payload: Option<Fields>, valid: bool, storable: bool)

  /** What crmWebhookSchema demands beyond the types. */
  predicate Conforms(req: Request) {
    req.enquiryId > 0 && 1 <= |req.record| <= 100 && Strings.Trim(req.record) == req.record
  }

  /** What answers a call before the controller; the limiter counts in Redis. */
  datatype Hurdle = BodyParser | RateLimiter | LimiterStore | SchemaCheck

  datatype Body = Passed(req: Request) | Stopped(cause: Hurdle)

  datatype Phase = Arrived | Audited | Checked | Answered(code: nat) | Crashed

  datatype Hook = Hook(body: Body, phase: Phase)

  datatype Processing = Received | Rejected

  datatype AuditRow = AuditRow(hook: nat, enquiryId: nat, valid: bool, processing: Processing)

  /** `pushed` holds the jobs whose current attempt has written its CRM record. */
  datatype State = State(rows: map<nat, Row>, crm: Jobs.State, pushed: set<nat>,
                         audit: seq<AuditRow>, hooks: map<nat, Hook>)

  const EMPTY := State(map[], Jobs.EMPTY, {}, [], map[])

  datatype Action =
    | AddRow(id: nat)                          // createEnquiry commits
    | Queue(a: Jobs.Action)                    // the crm-sync queue, and the clock
    | Push(id: nat, record: string)            // the worker's UPDATE lands
    | Receive(h: nat, body: Body)
    | TurnAway(h: nat)                         // before the controller
    | Audit(h: nat, fate: Fate)
    | Refuse(h: nat)
    | Check(h: nat)
    | CheckError(h: nat)
    | Apply(h: nat, fate: Fate)
    | Crash(h: nat)

  // ------------------------------------------------------------------------ writes

  /** One UPDATE of markCrmSynced; `hook` is None for the worker's. */
  datatype Write = Write(id: nat, hook: Option<nat>, record: string, status: Option<Status>, at: nat)

  function Written(row: Row, w: Write): Row {
    Row(if w.status.Some? then w.status.value else row.status, Some(w.record), Some(w.at))
  }

  /** UPDATE ... WHERE id: an unknown id matches no row. */
  function Update(rows: map<nat, Row>, w: Write): map<nat, Row> {
    if w.id in rows then rows[w.id := Written(rows[w.id], w)] else rows
  }

  function HookWrite(s: State, h: nat): Write
    requires h in s.hooks && s.hooks[h].body.Passed?
  {
    var q := s.hooks[h].body.req;
    Write(q.enquiryId, Some(h), q.record, q.status, s.crm.now)
  }

  /** The UPDATE an action performs, if any. */
  function WriteOf(s: State, a: Action): seq<Write>
    requires Enabled(s, a)
  {
    match a
    case Push(id, record) => [Write(id, None, record, None, s.crm.now)]
    case Apply(h, fate) => if fate.NotApplied? then [] else [HookWrite(s, h)]
    case _ => []
  }

  // ------------------------------------------------------------------- transitions

  predicate At(s: State, h: nat, p: Phase) { h in s.hooks && s.hooks[h].phase == p }

  predicate InHandler(s: State, h: nat, p: Phase) { At(s, h, p) && s.hooks[h].body.Passed? }

  predicate Over(p: Phase) { p.Answered? || p.Crashed? }

  predicate Enabled(s: State, a: Action) {
    match a
    case AddRow(id) => id !in s.rows
    case Queue(q) =>
      && Jobs.Enabled(s.crm, q)
      && (q.Add? ==> q.id in s.rows)
      && (q.Succeed? ==> q.id in s.pushed)
    case Push(id, _) => id in s.crm.jobs && s.crm.jobs[id].stage.Active? && id !in s.pushed
    case Receive(h, body) => h !in s.hooks && (body.Passed? ==> Conforms(body.req))
    case TurnAway(h) => At(s, h, Arrived) && s.hooks[h].body.Stopped?
    case Audit(h, _) => InHandler(s, h, Arrived)
    case Refuse(h) => InHandler(s, h, Audited) && !s.hooks[h].body.req.valid
    case Check(h) => InHandler(s, h, Audited) && s.hooks[h].body.req.valid
    case CheckError(h) => InHandler(s, h, Audited) && s.hooks[h].body.req.valid
    case Apply(h, _) => InHandler(s, h, Checked)
    case Crash(h) => h in s.hooks && !Over(s.hooks[h].phase)
  }

  function Move(s: State, h: nat, p: Phase): State
    requires h in s.hooks
  {
    s.(hooks := s.hooks[h := s.hooks[h].(phase := p)])
  }

  function AuditRowFor(h: nat, req: Request): AuditRow {
    AuditRow(h, req.enquiryId, req.valid, if req.valid then Received else Rejected)
  }

  /** An error that is no AppError answers 500, whether the body parser or the store of the
      limiter throws it. */
  function HurdleCode(cause: Hurdle): nat {
    match cause
    case BodyParser => 500
    case RateLimiter => 429
    case LimiterStore => 500
    case SchemaCheck => 400
  }

  function EventName(e: Event): string {
    match e
    case LeadUpdated => "lead.updated"
    case LeadStatusChanged => "lead.status_changed"
    case ContactSynced => "contact.synced"
  }

  function StatusName(st: Status): string {
    match st case New => "new" case Contacted => "contacted" case Converted => "converted" case Closed => "closed"
  }

  function IdAtom(id: nat): AtomText {
    Hash.DecimalRoundTrip(id);
    assert Hash.Decimal(id) != [];
    Hash.Decimal(id)
  }

  /** The validated body, in the order of the schema. */
  function BodyOf(req: Request): Json {
    var payload := if req.payload.Some? then Field("payload", Obj(req.payload.value), NoFields) else NoFields;
    var status := if req.status.Some? then Field("status", Str(StatusName(req.status.value)), payload) else payload;
    Obj(Field("event", Str(EventName(req.event)),
        Field("enquiryId", Atom(IdAtom(req.enquiryId)),
        Field("crmRecordId", Str(req.record), status))))
  }

  /** JSON.stringify(...).slice(0, 60000). */
  function CutText(req: Request): string {
    var text := Text(BodyOf(req));
    if |text| > PAYLOAD_LIMIT then text[..PAYLOAD_LIMIT] else text
  }

  /** CAST(... AS JSON) succeeds on the cut text. */
  ghost predicate Castable(req: Request) {
    IsJson(CutText(req)) && Nesting(CutText(req)) <= NESTING_LIMIT && req.storable
  }

  /** What the audit table accepts: the foreign key finds the enquiry, and the payload can
      be cast. */
  ghost predicate Auditable(rows: map<nat, Row>, req: Request) {
    req.enquiryId in rows && Castable(req)
  }

  ghost function Next(s: State, a: Action): State
    requires Enabled(s, a)
  {
    match a
    case AddRow(id) => s.(rows := s.rows[id := FRESH])
    case Queue(q) =>
      s.(crm := Jobs.Next(s.crm, q),
         pushed := if q.Throw? || q.Succeed? then s.pushed - {q.id} else s.pushed)
    case Push(id, record) =>
      s.(rows := Update(s.rows, WriteOf(s, a)[0]), pushed := s.pushed + {id})
    case Receive(h, body) => s.(hooks := s.hooks[h := Hook(body, Arrived)])
    case TurnAway(h) => Move(s, h, Answered(HurdleCode(s.hooks[h].body.cause)))
    case Audit(h, fate) =>
      var req := s.hooks[h].body.req;
      var lands := Auditable(s.rows, req) && !fate.NotApplied?;
      var t := if lands then s.(audit := s.audit + [AuditRowFor(h, req)]) else s;
      Move(t, h, if lands && fate.Done? then Audited else Answered(500))
    case Refuse(h) => Move(s, h, Answered(401))
    case Check(h) => Move(s, h, if s.hooks[h].body.req.enquiryId in s.rows then Checked else Answered(404))
    case CheckError(h) => Move(s, h, Answered(500))
    case Apply(h, fate) =>
      var t := if fate.NotApplied? then s else s.(rows := Update(s.rows, HookWrite(s, h)));
      Move(t, h, Answered(if fate.Done? then 200 else 500))
    case Crash(h) => Move(s, h, Crashed)
  }

  ghost predicate Run(tr: seq<State>, acts: seq<Action>) {
    && |tr| == |acts| + 1 && tr[0] == EMPTY
    && forall i :: 0 <= i < |acts| ==> Enabled(tr[i], acts[i]) && tr[i + 1] == Next(tr[i], acts[i])
  }

  // --------------------------------------------------------------------- invariants

  predicate RowOk(row: Row) { row.record.None? <==> row.syncedAt.None? }

  ghost predicate WorkerOk(s: State) {
    && (forall id :: id in s.crm.jobs ==> id in s.rows)
    && (forall id :: id in s.pushed ==>
          id in s.crm.jobs && s.crm.jobs[id].stage.Active? && s.rows[id].record.Some?)
    && (forall id :: id in s.crm.jobs && s.crm.jobs[id].stage.Completed? ==> s.rows[id].record.Some?)
  }

  ghost predicate HookOk(s: State, h: nat)
    requires h in s.hooks
  {
    match s.hooks[h].body
    case Stopped(cause) =>
      var p := s.hooks[h].phase;
      p == Arrived || p == Answered(HurdleCode(cause)) || p == Crashed
    case Passed(q) =>
      var logged := AuditRowFor(h, q) in s.audit;
      match s.hooks[h].phase
      case Arrived => true
      case Audited => logged && Auditable(s.rows, q)
      case Checked => logged && Auditable(s.rows, q) && q.valid
      case Answered(code) =>
        && (code == 200 || code == 401 || code == 500)
        && (code == 200 ==> logged && q.valid)
        && (code == 401 ==> logged && !q.valid)
      case Crashed => true
  }

  ghost predicate AuditOk(s: State) {
    && (forall p :: 0 <= p < |s.audit| ==>
          var h := s.audit[p].hook;
          && h in s.hooks && s.hooks[h].body.Passed? && s.audit[p] == AuditRowFor(h, s.hooks[h].body.req)
          && !s.hooks[h].phase.Arrived? && Auditable(s.rows, s.hooks[h].body.req))
    && (forall p, q :: 0 <= p < q < |s.audit| ==> s.audit[p].hook != s.audit[q].hook)
  }

  ghost predicate Inv(s: State) {
    && (forall id :: id in s.rows ==> RowOk(s.rows[id]))
    && WorkerOk(s)
    && (forall h :: h in s.hooks ==> HookOk(s, h))
    && AuditOk(s)
  }

  /** What no action undoes. */
  ghost predicate Keeps(s: State, t: State) {
    && (forall id :: id in s.rows ==> id in t.rows && (s.rows[id].record.Some? ==> t.rows[id].record.Some?))
    && s.audit <= t.audit
    && (forall h :: h in s.hooks ==>
          h in t.hooks && t.hooks[h].body == s.hooks[h].body
          && (Over(s.hooks[h].phase) ==> t.hooks[h] == s.hooks[h]))
  }

  lemma KeepsStep(s: State, a: Action)
    requires Enabled(s, a)
    ensures Keeps(s, Next(s, a))
  {}

  lemma RowsStep(s: State, a: Action)
    requires Enabled(s, a) && forall id :: id in s.rows ==> RowOk(s.rows[id])
    ensures forall id :: id in Next(s, a).rows ==> RowOk(Next(s, a).rows[id])
  {}

  lemma WorkerStep(s: State, a: Action)
    requires Enabled(s, a) && WorkerOk(s)
    ensures WorkerOk(Next(s, a))
  {
    hide Jobs.Backoff, HookOk, AuditOk;
    KeepsStep(s, a);
  }

  lemma HooksStep(s: State, a: Action, h: nat)
    requires Enabled(s, a) && h in Next(s, a).hooks && (h in s.hooks ==> HookOk(s, h))
    ensures HookOk(Next(s, a), h)
  {
    hide Jobs.Backoff, Jobs.Next, Written, Castable;
    KeepsStep(s, a);
  }

  lemma AuditStep(s: State, a: Action)
    requires Enabled(s, a) && AuditOk(s)
    ensures AuditOk(Next(s, a))
  {
    hide Jobs.Next, Written, Castable;
    KeepsStep(s, a);
  }

  lemma InvStep(s: State, a: Action)
    requires Enabled(s, a) && Inv(s)
    ensures Inv(Next(s, a))
  {
    hide Enabled, Next, HookOk, AuditOk, WorkerOk, RowOk;
    RowsStep(s, a);
    WorkerStep(s, a);
    AuditStep(s, a);
    forall h | h in Next(s, a).hooks ensures HookOk(Next(s, a), h) { HooksStep(s, a, h); }
  }

  lemma {:induction false} RunInv(tr: seq<State>, acts: seq<Action>, i: nat)
    requires Run(tr, acts) && i < |tr|
    ensures Inv(tr[i])
  {
    if i > 0 {
      hide Next, Enabled, Inv;
      RunInv(tr, acts, i - 1);
      InvStep(tr[i - 1], acts[i - 1]);
    }
  }

  lemma KeepsTrans(s: State, t: State, u: State)
    requires Keeps(s, t) && Keeps(t, u)
    ensures Keeps(s, u)
  {}

  lemma {:induction false} RunKeeps(tr: seq<State>, acts: seq<Action>, i: nat, j: nat)
    requires Run(tr, acts) && i <= j < |tr|
    ensures Keeps(tr[i], tr[j])
  {
    hide Next, Enabled, Keeps;
    if i == j {
      SelfKeeps(tr[i]);
    } else {
      RunKeeps(tr, acts, i, j - 1);
      KeepsStep(tr[j - 1], acts[j - 1]);
      KeepsTrans(tr[i], tr[j - 1], tr[j]);
    }
  }

  lemma SelfKeeps(s: State)
    ensures Keeps(s, s)
  {}

  // ------------------------------------------------ rows are the sum of their writes

  /** A row that starts fresh and takes the writes to its id in order. */
  function Replay(ws: seq<Write>, id: nat): Row {
    if |ws| == 0 then FRESH
    else
      var row := Replay(ws[..|ws| - 1], id);
      var last := ws[|ws| - 1];
      if last.id == id then Written(row, last) else row
  }

  /** The UPDATEs of a run, in order. */
  ghost function Writes(tr: seq<State>, acts: seq<Action>, n: nat): seq<Write>
    requires Run(tr, acts) && n <= |acts|
  {
    if n == 0 then [] else Writes(tr, acts, n - 1) + WriteOf(tr[n - 1], acts[n - 1])
  }

  /** At any moment every row is what the writes so far make of a fresh one. */
  lemma {:induction false} RowsReplayWrites(tr: seq<State>, acts: seq<Action>, n: nat, id: nat)
    requires Run(tr, acts) && n <= |acts|
    ensures id in tr[n].rows ==> tr[n].rows[id] == Replay(Writes(tr, acts, n), id)
    ensures id !in tr[n].rows ==> Replay(Writes(tr, acts, n), id) == FRESH
  {
    if n > 0 {
      RowsReplayWrites(tr, acts, n - 1, id);
      RunInv(tr, acts, n - 1);
      var s, a, ws := tr[n - 1], acts[n - 1], Writes(tr, acts, n - 1);
      RowStep(s, a, id);
      if |WriteOf(s, a)| == 1 {
        var last := WriteOf(s, a)[0];
        assert ws + WriteOf(s, a) == ws + [last];
        ReplayLast(ws, last, id);
      } else {
        assert ws + WriteOf(s, a) == ws;
      }
    }
  }

  lemma ReplayLast(ws: seq<Write>, last: Write, id: nat)
    ensures Replay(ws + [last], id) == if last.id == id then Written(Replay(ws, id), last) else Replay(ws, id)
  {
    assert (ws + [last])[..|ws|] == ws;
  }

  /** One action's effect on one row. */
  lemma RowStep(s: State, a: Action, id: nat)
    requires Enabled(s, a) && Inv(s)
    ensures |WriteOf(s, a)| <= 1
    ensures var t, ws := Next(s, a), WriteOf(s, a);
            var hit := |ws| == 1 && ws[0].id == id;
            && (id in s.rows ==> id in t.rows && t.rows[id] == if hit then Written(s.rows[id], ws[0]) else s.rows[id])
            && (id !in s.rows ==> !hit && (id in t.rows ==> t.rows[id] == FRESH))
  {
    hide AuditOk, Jobs.Next, Written, RowOk;
    if a.Apply? { assert HookOk(s, a.h); }
  }

  // ----------------------------------------------------------------- main results

  /** The k-th write is the last one that gives enquiry id a status. */
  predicate Decides(ws: seq<Write>, k: nat, id: nat) {
    && k < |ws| && ws[k].id == id && ws[k].status.Some?
    && forall j :: k < j < |ws| && ws[j].id == id ==> ws[j].status.None?
  }

  /** A status is that of the last write carrying one. */
  lemma {:induction false} ReplayStatus(ws: seq<Write>, k: nat, id: nat)
    requires Decides(ws, k, id)
    ensures Replay(ws, id).status == ws[k].status.value
  {
    if k < |ws| - 1 {
      DecidesBefore(ws, k, id);
      ReplayStatus(ws[..|ws| - 1], k, id);
    }
  }

  /** And `new` before any such write. */
  lemma {:induction false} ReplayUnset(ws: seq<Write>, id: nat)
    requires forall k :: 0 <= k < |ws| && ws[k].id == id ==> ws[k].status.None?
    ensures Replay(ws, id).status == New
  {
    if |ws| > 0 {
      var rest := ws[..|ws| - 1];
      assert forall k :: 0 <= k < |rest| ==> rest[k] == ws[k];
      ReplayUnset(rest, id);
    }
  }

  lemma DecidesBefore(ws: seq<Write>, k: nat, id: nat)
    requires Decides(ws, k, id) && k < |ws| - 1
    ensures Decides(ws[..|ws| - 1], k, id)
    ensures ws[|ws| - 1].id == id ==> ws[|ws| - 1].status.None?
  {}

  /** In every run an enquiry's status is the one in the last webhook applied to it that
      carries a status, else `new`; the worker's writes have no say. */
  lemma StatusOfLastWebhook(tr: seq<State>, acts: seq<Action>, n: nat, id: nat)
    requires Run(tr, acts) && n <= |acts| && id in tr[n].rows
    ensures var ws := Writes(tr, acts, n);
            && (forall k: nat :: Decides(ws, k, id) ==> ws[k].hook.Some? && tr[n].rows[id].status == ws[k].status.value)
            && ((forall k :: 0 <= k < |ws| && ws[k].id == id ==> ws[k].status.None?) ==> tr[n].rows[id].status == New)
  {
    RowsReplayWrites(tr, acts, n, id);
    StatusByHooks(tr, acts, n);
    var ws := Writes(tr, acts, n);
    hide Run, Writes, Replay, Decides;
    forall k: nat | Decides(ws, k, id) ensures ws[k].hook.Some? && tr[n].rows[id].status == ws[k].status.value {
      DecidesInRange(ws, k, id);
      ReplayStatus(ws, k, id);
    }
    if forall k :: 0 <= k < |ws| && ws[k].id == id ==> ws[k].status.None? { ReplayUnset(ws, id); }
  }

  lemma DecidesInRange(ws: seq<Write>, k: nat, id: nat)
    requires Decides(ws, k, id)
    ensures k < |ws| && ws[k].status.Some?
  {}

  lemma {:induction false} ReplayLastWrite(ws: seq<Write>, k: nat, id: nat)
    requires k < |ws| && ws[k].id == id && forall j :: k < j < |ws| ==> ws[j].id != id
    ensures Replay(ws, id).record == Some(ws[k].record) && Replay(ws, id).syncedAt == Some(ws[k].at)
  {
    if k < |ws| - 1 {
      var rest := ws[..|ws| - 1];
      assert forall j :: 0 <= j < |rest| ==> rest[j] == ws[j];
      ReplayLastWrite(rest, k, id);
    }
  }

  /** In every run an enquiry's record and sync time are those of the last UPDATE made to it,
      whoever made it. */
  lemma RecordOfLastWrite(tr: seq<State>, acts: seq<Action>, n: nat, id: nat, k: nat)
    requires Run(tr, acts) && n <= |acts| && id in tr[n].rows && k < |Writes(tr, acts, n)|
    requires var ws := Writes(tr, acts, n); ws[k].id == id && forall j :: k < j < |ws| ==> ws[j].id != id
    ensures tr[n].rows[id].record == Some(Writes(tr, acts, n)[k].record)
    ensures tr[n].rows[id].syncedAt == Some(Writes(tr, acts, n)[k].at)
  {
    RowsReplayWrites(tr, acts, n, id);
    ReplayLastWrite(Writes(tr, acts, n), k, id);
  }

  lemma {:induction false} StatusByHooks(tr: seq<State>, acts: seq<Action>, n: nat)
    requires Run(tr, acts) && n <= |acts|
    ensures WorkerSilent(Writes(tr, acts, n))
  {
    if n > 0 { StatusByHooks(tr, acts, n - 1); }
  }

  /** The statuses that webhooks wrote to one enquiry, in order. */
  function Statuses(ws: seq<Write>, id: nat): seq<Status> {
    if |ws| == 0 then []
    else
      var last := ws[|ws| - 1];
      Statuses(ws[..|ws| - 1], id) +
      (if last.id == id && last.hook.Some? && last.status.Some? then [last.status.value] else [])
  }

  function LastOr(sts: seq<Status>): Status { if sts == [] then New else sts[|sts| - 1] }

  predicate WorkerSilent(ws: seq<Write>) {
    forall k :: 0 <= k < |ws| && ws[k].hook.None? ==> ws[k].status.None?
  }

  lemma {:induction false} ReplayStatuses(ws: seq<Write>, id: nat)
    requires WorkerSilent(ws)
    ensures Replay(ws, id).status == LastOr(Statuses(ws, id))
  {
    if |ws| > 0 {
      var rest := ws[..|ws| - 1];
      assert forall k :: 0 <= k < |rest| ==> rest[k] == ws[k];
      ReplayStatuses(rest, id);
    }
  }

  lemma StatusFromWebhooks(tr: seq<State>, acts: seq<Action>, n: nat, id: nat)
    requires Run(tr, acts) && n <= |acts| && id in tr[n].rows
    ensures tr[n].rows[id].status == LastOr(Statuses(Writes(tr, acts, n), id))
  {
    RowsReplayWrites(tr, acts, n, id);
    StatusByHooks(tr, acts, n);
    ReplayStatuses(Writes(tr, acts, n), id);
  }

  /** Confluence: two runs, or two moments, in which webhooks brought an enquiry the same
      statuses in the same order agree on its status: whenever they were applied, in
      whichever calls, with whatever record, and wherever and however often the worker
      wrote in between. */
  lemma CrmConfluence(tr: seq<State>, acts: seq<Action>, n: nat,
                      tr': seq<State>, acts': seq<Action>, n': nat, id: nat)
    requires Run(tr, acts) && n <= |acts| && id in tr[n].rows
    requires Run(tr', acts') && n' <= |acts'| && id in tr'[n'].rows
    requires Statuses(Writes(tr, acts, n), id) == Statuses(Writes(tr', acts', n'), id)
    ensures tr[n].rows[id].status == tr'[n'].rows[id].status
  {
    hide Run, Writes, Statuses, LastOr;
    StatusFromWebhooks(tr, acts, n, id);
    StatusFromWebhooks(tr', acts', n', id);
  }

  /** An enquiry has a CRM record exactly when it has a sync time, and when some write was
      made to it; a completed sync job leaves both. */
  lemma RecordAndTimeTogether(tr: seq<State>, acts: seq<Action>, n: nat, id: nat)
    requires Run(tr, acts) && n <= |acts| && id in tr[n].rows
    ensures tr[n].rows[id].record.Some? <==> tr[n].rows[id].syncedAt.Some?
    ensures var ws := Writes(tr, acts, n);
            tr[n].rows[id].record.Some? <==> exists k :: 0 <= k < |ws| && ws[k].id == id
    ensures id in tr[n].crm.jobs && tr[n].crm.jobs[id].stage.Completed? ==> tr[n].rows[id].record.Some?
  {
    RunInv(tr, acts, n);
    assert RowOk(tr[n].rows[id]);
    RowsReplayWrites(tr, acts, n, id);
    ReplayRecord(Writes(tr, acts, n), id);
  }

  lemma {:induction false} ReplayRecord(ws: seq<Write>, id: nat)
    ensures Replay(ws, id).record.Some? <==> exists k :: 0 <= k < |ws| && ws[k].id == id
  {
    if |ws| > 0 {
      var rest := ws[..|ws| - 1];
      ReplayRecord(rest, id);
      assert forall k :: 0 <= k < |rest| ==> rest[k] == ws[k];
    }
  }

  lemma HookOfInv(s: State, h: nat)
    requires Inv(s) && h in s.hooks
    ensures HookOk(s, h)
  {}

  // ------------------------------------------------------- the worker's share

  function WorkerWrites(ws: seq<Write>, id: nat): nat {
    if |ws| == 0 then 0
    else
      var last := ws[|ws| - 1];
      WorkerWrites(ws[..|ws| - 1], id) + (if last.id == id && last.hook.None? then 1 else 0)
  }

  /** Whether job id has an attempt under way that has not written yet. */
  predicate Unwritten(s: State, id: nat) {
    id in s.crm.jobs && s.crm.jobs[id].stage.Active? && id !in s.pushed
  }

  ghost predicate ShareOk(s: State, writes: nat, id: nat) {
    if id in s.crm.jobs then
      && writes + (if Unwritten(s, id) then 1 else 0) <= s.crm.jobs[id].started
      && (id in s.pushed || s.crm.jobs[id].stage.Completed? ==> writes > 0)
    else writes == 0
  }

  lemma ShareStep(s: State, a: Action, writes: nat, id: nat)
    requires Enabled(s, a) && WorkerOk(s) && ShareOk(s, writes, id)
    ensures ShareOk(Next(s, a), writes + (if a.Push? && a.id == id then 1 else 0), id)
  {
    hide Jobs.Backoff, Update;
  }

  lemma {:induction false} WorkerShare(tr: seq<State>, acts: seq<Action>, n: nat, id: nat)
    requires Run(tr, acts) && n <= |acts|
    ensures ShareOk(tr[n], WorkerWrites(Writes(tr, acts, n), id), id)
  {
    if n == 0 {
      assert ShareOk(EMPTY, 0, id);
    } else {
      hide Next, Enabled, ShareOk, Inv, WriteOf, WorkerWrites;
      WorkerShare(tr, acts, n - 1, id);
      RunInv(tr, acts, n - 1);
      ShareFollows(tr[n - 1], acts[n - 1], Writes(tr, acts, n - 1), id);
    }
  }

  lemma ShareFollows(s: State, a: Action, ws: seq<Write>, id: nat)
    requires Enabled(s, a) && Inv(s) && ShareOk(s, WorkerWrites(ws, id), id)
    ensures ShareOk(Next(s, a), WorkerWrites(ws + WriteOf(s, a), id), id)
  {
    ShareStep(s, a, WorkerWrites(ws, id), id);
    hide Next, ShareOk;
    if |WriteOf(s, a)| == 1 {
      assert (ws + WriteOf(s, a))[..|ws|] == ws;
    } else {
      assert ws + WriteOf(s, a) == ws;
    }
  }

  lemma {:induction false} QueueInv(tr: seq<State>, acts: seq<Action>, n: nat)
    requires Run(tr, acts) && n <= |acts|
    ensures Jobs.Inv(tr[n].crm)
  {
    if n > 0 {
      hide Jobs.Inv, Jobs.Next, Jobs.Enabled, Update;
      QueueInv(tr, acts, n - 1);
      var s, a := tr[n - 1], acts[n - 1];
      assert Enabled(s, a) && tr[n] == Next(s, a);
      if a.Queue? { Jobs.InvStep(s.crm, a.a); }
    } else {
      assert Jobs.Inv(Jobs.EMPTY);
    }
  }

  /** The worker writes an enquiry's CRM record at most three times in any run, and a sync
      job completes only after at least one such write. */
  lemma WorkerWritesBounded(tr: seq<State>, acts: seq<Action>, n: nat, id: nat)
    requires Run(tr, acts) && n <= |acts|
    ensures var c := WorkerWrites(Writes(tr, acts, n), id);
            && c <= 3
            && (c > 0 ==> id in tr[n].crm.jobs)
            && (id in tr[n].crm.jobs && tr[n].crm.jobs[id].stage.Completed? ==> c > 0)
  {
    WorkerShare(tr, acts, n, id);
    QueueInv(tr, acts, n);
    if id in tr[n].crm.jobs { Jobs.JobOfInv(tr[n].crm, id); }
  }
}
