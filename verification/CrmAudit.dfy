/** What the webhook audit and the answers to the CRM say, over every run: which calls are
    on record, what a change of an enquiry rests on, and what each status code means. */
module CrmAudit {
  import opened Wrappers
  import opened Schema
  import opened JsonText
  import opened Crm
  import Hash

  // -------------------------------------------------------------------- the table

  /** The audit table only grows, and holds at most one row per webhook. */
  lemma AuditAppendOnly(tr: seq<State>, acts: seq<Action>, i: nat, j: nat)
    requires Run(tr, acts) && i <= j < |tr|
    ensures tr[i].audit <= tr[j].audit
    ensures forall p, q :: 0 <= p < q < |tr[j].audit| ==> tr[j].audit[p].hook != tr[j].audit[q].hook
  {
    hide Next, Enabled;
    RunKeeps(tr, acts, i, j);
    RunInv(tr, acts, j);
  }

  /** Whatever changes an enquiry is the worker, which leaves the status alone, or a
      webhook naming it that is already in the audit table as correctly signed. */
  lemma ChangesAudited(tr: seq<State>, acts: seq<Action>, i: nat, id: nat)
    requires Run(tr, acts) && i < |acts| && id in tr[i].rows
    requires tr[i + 1].rows[id] != tr[i].rows[id]
    ensures match acts[i]
            case Push(e, _) => e == id && tr[i + 1].rows[id].status == tr[i].rows[id].status
            case Apply(h, _) => AuditRow(h, id, true, Received) in tr[i].audit
            case _ => false
  {
    hide Castable;
    RunInv(tr, acts, i);
    RowStep(tr[i], acts[i], id);
    if acts[i].Apply? { HookOfInv(tr[i], acts[i].h); }
  }

  /** Each webhook is applied at most once. */
  lemma AppliedOnce(tr: seq<State>, acts: seq<Action>, i: nat, j: nat)
    requires Run(tr, acts) && i < j < |acts| && acts[i].Apply? && acts[j].Apply?
    ensures acts[i].h != acts[j].h
  {
    hide Castable;
    assert Enabled(tr[i], acts[i]) && tr[i + 1] == Next(tr[i], acts[i]) && Enabled(tr[j], acts[j]);
    RunKeeps(tr, acts, i + 1, j);
  }

  /** A wrongly signed webhook is never applied. */
  lemma ForgedNeverApplied(tr: seq<State>, acts: seq<Action>, n: nat, h: nat)
    requires Run(tr, acts) && n <= |acts| && h in tr[n].hooks
    requires tr[n].hooks[h].body.Passed? && !tr[n].hooks[h].body.req.valid
    ensures forall i :: 0 <= i < n && acts[i].Apply? ==> acts[i].h != h
  {
    hide Castable;
    forall i | 0 <= i < n && acts[i].Apply? ensures acts[i].h != h {
      if acts[i].h == h {
        assert Enabled(tr[i], acts[i]);
        RunInv(tr, acts, i);
        HookOfInv(tr[i], h);
        RunKeeps(tr, acts, i, n);
        assert false;
      }
    }
  }

  // ------------------------------------------------------------------- the answers

  /** What the answers tell the CRM, and the one promised answer it never gets: for an
      unknown enquiry the audit insert fails first, so the 404 is out of reach. */
  lemma AnswersTrue(tr: seq<State>, acts: seq<Action>, n: nat, h: nat)
    requires Run(tr, acts) && n <= |acts| && h in tr[n].hooks && tr[n].hooks[h].phase.Answered?
    ensures var code := tr[n].hooks[h].phase.code;
            match tr[n].hooks[h].body
            case Stopped(cause) =>
              && (cause.SchemaCheck? <==> code == 400) && (cause.RateLimiter? <==> code == 429)
              && (cause.BodyParser? || cause.LimiterStore? <==> code == 500)
            case Passed(req) =>
              && (code == 200 || code == 401 || code == 500)
              && (code == 200 ==> req.valid && AuditRow(h, req.enquiryId, true, Received) in tr[n].audit)
              && (code == 401 ==> !req.valid && AuditRow(h, req.enquiryId, false, Rejected) in tr[n].audit)
              && (!Auditable(tr[n].rows, req) ==> code == 500)
  {
    hide Castable;
    RunInv(tr, acts, n);
    HookOfInv(tr[n], h);
    if tr[n].hooks[h].body.Passed? && AuditRowFor(h, tr[n].hooks[h].body.req) in tr[n].audit {
      LoggedAuditable(tr[n], h);
    }
  }

  lemma LoggedAuditable(s: State, h: nat)
    requires Inv(s) && h in s.hooks && s.hooks[h].body.Passed? && AuditRowFor(h, s.hooks[h].body.req) in s.audit
    ensures Auditable(s.rows, s.hooks[h].body.req)
  {
    hide Castable;
  }

  /** A 200 means that this webhook's own UPDATE was made. */
  lemma {:induction false} OkMeansApplied(tr: seq<State>, acts: seq<Action>, n: nat, h: nat)
    requires Run(tr, acts) && n <= |acts| && At(tr[n], h, Answered(200))
    ensures exists i :: 0 <= i < n && acts[i] == Apply(h, Done)
  {
    if n == 0 { return; }
    hide Next, Enabled;
    var s, a := tr[n - 1], acts[n - 1];
    if At(s, h, Answered(200)) {
      OkMeansApplied(tr, acts, n - 1, h);
    } else {
      OkStep(s, a, h);
      assert acts[n - 1] == Apply(h, Done);
    }
  }

  lemma OkStep(s: State, a: Action, h: nat)
    requires Enabled(s, a) && At(Next(s, a), h, Answered(200)) && !At(s, h, Answered(200))
    ensures a == Apply(h, Done)
  {
    hide Castable;
  }

  // --------------------------------------------------------- which calls are on record

  /** MySQL takes the cut text exactly when nothing was cut, it is not nested too deep,
      and MySQL can store its strings. */
  lemma CastableIff(req: Request)
    ensures Castable(req) <==>
              |Text(BodyOf(req))| <= 60000 && Depth(BodyOf(req)) <= 100 && req.storable
  {
    hide Text, Depth, IdAtom;
    var j := BodyOf(req);
    if |Text(j)| > PAYLOAD_LIMIT {
      CutIsNotJson(j.fields, PAYLOAD_LIMIT);
    } else {
      assert IsJson(Text(j));
      NestingIsDepth(j);
    }
  }

  predicate Logged(s: State, h: nat) {
    exists p :: 0 <= p < |s.audit| && s.audit[p].hook == h
  }

  /** The action writes the audit row of call h. */
  predicate Records(s: State, a: Action, h: nat) {
    && a.Audit? && a.h == h && a.fate != NotApplied
    && h in s.hooks && s.hooks[h].body.Passed?
    && var req := s.hooks[h].body.req;
       && req.enquiryId in s.rows
       && |Text(BodyOf(req))| <= 60000 && Depth(BodyOf(req)) <= 100 && req.storable
  }

  lemma RecordsStep(s: State, a: Action, h: nat)
    requires Enabled(s, a)
    ensures Logged(Next(s, a), h) <==> Logged(s, h) || Records(s, a, h)
  {
    hide Castable, Text, Depth;
    var t := Next(s, a);
    if a.Audit? {
      CastableIff(s.hooks[a.h].body.req);
      if t.audit != s.audit { assert t.audit[|s.audit|].hook == a.h; }
    }
    assert s.audit <= t.audit;
    if Logged(s, h) {
      var p :| 0 <= p < |s.audit| && s.audit[p].hook == h;
      assert t.audit[p].hook == h;
    }
  }

  /** An inbound call is on record exactly when it got to the controller, its enquiry
      existed then, its payload could be cast, and the insert took effect. "Every call,
      valid or not" is more than the code keeps. */
  lemma {:induction false} RecordedIff(tr: seq<State>, acts: seq<Action>, n: nat, h: nat)
    requires Run(tr, acts) && n <= |acts|
    ensures Logged(tr[n], h) <==> exists i :: 0 <= i < n && Records(tr[i], acts[i], h)
  {
    hide Records, Logged;
    if n == 0 {
      NothingLogged(h);
    } else {
      RecordedIff(tr, acts, n - 1, h);
      RecordsStep(tr[n - 1], acts[n - 1], h);
    }
  }

  lemma NothingLogged(h: nat)
    ensures !Logged(EMPTY, h)
  {}

  /** A call that is never on record though its enquiry exists and nothing fails on the
      way: it meets a hurdle, or its payload cannot be cast. */
  predicate Unrecordable(body: Body) {
    body.Passed? ==>
      |Text(BodyOf(body.req))| > 60000 || Depth(BodyOf(body.req)) > 100 || !body.req.storable
  }

  /** For every such call a run that answers it and leaves the table empty. */
  lemma UnrecordedRun(body: Body, id: nat) returns (tr: seq<State>, acts: seq<Action>)
    requires Unrecordable(body) && (body.Passed? ==> Conforms(body.req) && body.req.enquiryId == id)
    ensures Run(tr, acts)
    ensures acts == [AddRow(id), Receive(1, body), if body.Passed? then Audit(1, Done) else TurnAway(1)]
    ensures id in tr[3].rows && tr[3].audit == [] && 1 in tr[3].hooks
    ensures tr[3].hooks[1] == Hook(body, Answered(
              if body.Passed? || body.cause.BodyParser? || body.cause.LimiterStore? then 500
              else if body.cause.RateLimiter? then 429 else 400))
  {
    hide Castable, Text, Depth, BodyOf, Conforms;
    if body.Passed? { CastableIff(body.req); }
    var a, b, c := AddRow(id), Receive(1, body), if body.Passed? then Audit(1, Done) else TurnAway(1);
    var s1 := Next(EMPTY, a);
    var s2 := Next(s1, b);
    var s3 := Next(s2, c);
    tr, acts := [EMPTY, s1, s2, s3], [a, b, c];
  }

  /** One member of an object's text. */
  function Member(name: string, text: string): string { Quoted(name) + [':'] + text }

  /** What follows the first field: a comma and the rest, if there is any. */
  function Tail(fields: Fields): string {
    if fields.NoFields? then [] else [','] + FieldsText(fields)
  }

  lemma FieldText(name: string, v: Json, rest: Fields)
    ensures FieldsText(Field(name, v, rest)) == Member(name, Text(v)) + Tail(rest)
    ensures Tail(Field(name, v, rest)) == [','] + Member(name, Text(v)) + Tail(rest)
  {
    hide Quoted, Text;
  }

  /** The text that is stored: every field of the body under its name in the schema, the
      optional ones when present, with the request's own values. */
  lemma StoredText(req: Request)
    ensures var event := match req.event
                         case LeadUpdated => "lead.updated"
                         case LeadStatusChanged => "lead.status_changed"
                         case ContactSynced => "contact.synced";
            var payload := if req.payload.None? then []
                           else [','] + Member("payload", Text(Obj(req.payload.value)));
            var status := if req.status.None? then payload
                          else [','] + Member("status", Quoted(match req.status.value
                                                               case New => "new"
                                                               case Contacted => "contacted"
                                                               case Converted => "converted"
                                                               case Closed => "closed")) + payload;
            var record := [','] + Member("crmRecordId", Quoted(req.record)) + status;
            var id := [','] + Member("enquiryId", Hash.Decimal(req.enquiryId)) + record;
            Text(BodyOf(req)) == ['{'] + (Member("event", Quoted(event)) + id) + ['}']
  {
    hide Quoted, FieldsText, Hash.Decimal, Member, Tail;
    var e := if req.payload.Some? then Field("payload", Obj(req.payload.value), NoFields) else NoFields;
    var d := if req.status.Some? then Field("status", Str(StatusName(req.status.value)), e) else e;
    var c := Field("crmRecordId", Str(req.record), d);
    var b := Field("enquiryId", Atom(IdAtom(req.enquiryId)), c);
    NoTail();
    if req.payload.Some? {
      FieldText("payload", Obj(req.payload.value), NoFields);
      var m := [','] + Member("payload", Text(Obj(req.payload.value)));
      assert m + [] == m;
    }
    if req.status.Some? { FieldText("status", Str(StatusName(req.status.value)), e); }
    FieldText("crmRecordId", Str(req.record), d);
    FieldText("enquiryId", Atom(IdAtom(req.enquiryId)), c);
    FieldText("event", Str(EventName(req.event)), b);
  }

  lemma NoTail()
    ensures Tail(NoFields) == []
  {}

  /** A text without quotes, backslashes and control characters is quoted as it is. */
  lemma {:induction false} PlainText(s: string)
    requires forall i :: 0 <= i < |s| ==> s[i] >= ' ' && s[i] != '"' && s[i] != '\\'
    ensures Escapes(s) == s && Quoted(s) == "\"" + s + "\""
  {
    if s != [] { PlainText(s[1..]); }
  }

  /** A webhook with something in its payload object. */
  function Carrying(req: Request, v: Json): Request {
    req.(payload := Some(Field("a", v, NoFields)))
  }

  const SMALL := Request(LeadUpdated, 1, "r", None, None, true, true)

  /** Calls that the schema lets through and the table does not take: any with a long
      string, or with 101 levels of brackets, which need no more than 300 characters. */
  lemma UnrecordableExamples(req: Request, s: string)
    requires Conforms(req) && |s| >= 60000
    ensures Conforms(Carrying(req, Str(s))) && Unrecordable(Passed(Carrying(req, Str(s))))
    ensures Conforms(Carrying(req, Nested(98))) && Unrecordable(Passed(Carrying(req, Nested(98))))
    ensures Conforms(SMALL) && |Text(BodyOf(Carrying(SMALL, Nested(98))))| < 300
  {
    hide Text, Depth, Nested, Escapes, Conforms;
    NestedShape(98);
    StringShape(s);
    PayloadWeighs(Carrying(req, Str(s)), Str(s));
    PayloadWeighs(Carrying(req, Nested(98)), Nested(98));
    ConformsKept(req, Str(s));
    ConformsKept(req, Nested(98));
    SmallText(Nested(98));
  }

  lemma ConformsKept(req: Request, v: Json)
    requires Conforms(req)
    ensures Conforms(Carrying(req, v)) && Conforms(SMALL)
  {}

  /** The text and depth of a list of fields, one field at a time. */
  lemma FirstField(name: string, v: Json, rest: Fields)
    ensures |FieldsText(Field(name, v, rest))| ==
              |Quoted(name)| + 1 + |Text(v)| + (if rest.NoFields? then 0 else 1 + |FieldsText(rest)|)
    ensures FieldsDepth(Field(name, v, rest)) >= FieldsDepth(rest)
    ensures FieldsDepth(Field(name, v, rest)) >= Depth(v)
  {
    hide Text, Depth, Quoted;
  }

  lemma ObjectShape(fields: Fields)
    ensures |Text(Obj(fields))| == 2 + |FieldsText(fields)| && Depth(Obj(fields)) == 1 + FieldsDepth(fields)
  {
    hide FieldsText, FieldsDepth;
  }

  /** A body is longer than what it carries, and two levels deeper. */
  lemma PayloadWeighs(req: Request, v: Json)
    requires req.payload == Some(Field("a", v, NoFields))
    ensures |Text(BodyOf(req))| > |Text(v)| && Depth(BodyOf(req)) >= 2 + Depth(v)
  {
    hide Text, Depth, FieldsText, FieldsDepth, Quoted, IdAtom, EventName, StatusName;
    var inner := Field("a", v, NoFields);
    var p := Field("payload", Obj(inner), NoFields);
    FirstField("a", v, NoFields);
    ObjectShape(inner);
    FirstField("payload", Obj(inner), NoFields);
    if req.status.Some? { FirstField("status", Str(StatusName(req.status.value)), p); }
    var tail := if req.status.Some? then Field("status", Str(StatusName(req.status.value)), p) else p;
    FirstField("crmRecordId", Str(req.record), tail);
    var third := Field("crmRecordId", Str(req.record), tail);
    FirstField("enquiryId", Atom(IdAtom(req.enquiryId)), third);
    var second := Field("enquiryId", Atom(IdAtom(req.enquiryId)), third);
    FirstField("event", Str(EventName(req.event)), second);
    ObjectShape(Field("event", Str(EventName(req.event)), second));
  }

  lemma SmallText(v: Json)
    ensures |Text(BodyOf(Carrying(SMALL, v)))| <= 90 + |Text(v)|
  {
    hide Text, FieldsText, Quoted;
    var inner := Field("a", v, NoFields);
    var p := Field("payload", Obj(inner), NoFields);
    var third := Field("crmRecordId", Str("r"), p);
    var second := Field("enquiryId", Atom(IdAtom(1)), third);
    var first := Field("event", Str("lead.updated"), second);
    FirstField("a", v, NoFields);
    ObjectShape(inner);
    FirstField("payload", Obj(inner), NoFields);
    FirstField("crmRecordId", Str("r"), p);
    FirstField("enquiryId", Atom(IdAtom(1)), third);
    FirstField("event", Str("lead.updated"), second);
    ObjectShape(first);
    SmallParts();
    assert BodyOf(Carrying(SMALL, v)) == Obj(first);
  }

  lemma SmallParts()
    ensures |Quoted("a")| == 3 && |Quoted("payload")| == 9 && |Quoted("crmRecordId")| == 13
    ensures |Quoted("enquiryId")| == 11 && |Quoted("event")| == 7
    ensures |Text(Str("r"))| == 3 && |Text(Str("lead.updated"))| == 14 && |Text(Atom(IdAtom(1)))| == 1
  {
    hide Quoted, IdAtom, Hash.Decimal;
    OneDigitId();
    QuotedLength("a");
    QuotedLength("payload");
    QuotedLength("crmRecordId");
    QuotedLength("enquiryId");
    QuotedLength("event");
    QuotedLength("r");
    QuotedLength("lead.updated");
  }

  lemma QuotedLength(s: string)
    requires forall i :: 0 <= i < |s| ==> s[i] >= ' ' && s[i] != '"' && s[i] != '\\'
    ensures |Quoted(s)| == |s| + 2
  {
    PlainText(s);
  }

  lemma OneDigitId()
    ensures |IdAtom(1)| == 1
  {}

  lemma StringShape(s: string)
    ensures |Text(Str(s))| >= |s| + 2
  {
    EscapesLong(s);
  }
}
