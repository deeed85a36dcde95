/** The code of the CRM's two writers over the tables they update in place: each step
    method is proved to be one action of the protocol, and the two entry points, the
    webhook handler and the sync worker, are stated from end to end. */
module CrmService {
  import opened Wrappers
  import opened Schema
  import opened Crm
  import opened JsonText
  import CrmAudit
  import Hash
  import Jobs

  /** The record id of a push: the enquiry and the moment. */
  function CrmRecord(id: nat, at: nat): string { "crm_" + Hash.Decimal(id) + "_" + Hash.Decimal(at) }

  /** No two enquiries, and no two moments, ever get the same record. */
  lemma RecordsDiffer(id: nat, at: nat, id': nat, at': nat)
    ensures CrmRecord(id, at) == CrmRecord(id', at') <==> id == id' && at == at'
    ensures CrmRecord(42, 7) == "crm_42_7"
  {
    hide Hash.Decimal;
    RecordExample();
    if CrmRecord(id, at) == CrmRecord(id', at') {
      var u, v := Hash.Decimal(id) + ['_'] + Hash.Decimal(at), Hash.Decimal(id') + ['_'] + Hash.Decimal(at');
      assert CrmRecord(id, at) == "crm_" + u && CrmRecord(id', at') == "crm_" + v;
      assert ("crm_" + u)[4..] == u && ("crm_" + v)[4..] == v;
      Hash.DecimalRoundTrip(id);
      Hash.DecimalRoundTrip(at);
      Hash.DecimalRoundTrip(id');
      Hash.DecimalRoundTrip(at');
      Hash.CutAt(Hash.Decimal(id), '_', Hash.Decimal(at));
      Hash.CutAt(Hash.Decimal(id'), '_', Hash.Decimal(at'));
    }
  }

  lemma RecordExample()
    ensures CrmRecord(42, 7) == "crm_42_7"
  {
    assert Hash.Decimal(4) == "4" && Hash.Decimal(42) == "42" && Hash.Decimal(7) == "7";
  }

  class Service {
    var rows: map<nat, Row>
    const queue: Jobs.Queue
    var pushed: set<nat>
    var audit: seq<AuditRow>
    var hooks: map<nat, Hook>

    ghost function View(): State
      reads this, queue
    {
      State(rows, queue.View(), pushed, audit, hooks)
    }

    constructor ()
      ensures View() == EMPTY && fresh(queue)
    {
      rows, pushed, audit, hooks := map[], {}, [], map[];
      queue := new Jobs.Queue();
    }

    /** The UPDATE: record and time always, status only when one is given, other rows and
        unknown ids untouched. */
    method MarkCrmSynced(id: nat, record: string, status: Option<Status>, fate: Fate) returns (ok: bool)
      modifies this`rows
      ensures ok <==> fate.Done?
      ensures rows.Keys == old(rows).Keys
      ensures forall e :: e in rows && (e != id || fate.NotApplied?) ==> rows[e] == old(rows[e])
      ensures id in rows && !fate.NotApplied? ==>
                && rows[id].record == Some(record) && rows[id].syncedAt == Some(queue.now)
                && rows[id].status == if status.Some? then status.value else old(rows[id].status)
    {
      if fate != NotApplied && id in rows {
        var row := rows[id].(record := Some(record), syncedAt := Some(queue.now));
        if status.Some? { row := row.(status := status.value); }
        rows := rows[id := row];
      }
      ok := fate == Done;
    }

    // ------------------------------------------------------------------ the webhook

    /** A webhook call comes in. */
    method ReceiveHook(h: nat, body: Body)
      requires Enabled(View(), Receive(h, body))
      modifies this`hooks
      ensures View() == Next(old(View()), Receive(h, body))
    {
      hooks := hooks[h := Hook(body, Arrived)];
    }

    /** The body parser, the rate limiter or the schema answers it. */
    method TurnHookAway(h: nat)
      requires Enabled(View(), TurnAway(h))
      modifies this`hooks
      ensures View() == Next(old(View()), TurnAway(h))
    {
      hooks := hooks[h := hooks[h].(phase := Answered(HurdleCode(hooks[h].body.cause)))];
    }

    /** The audit insert, before anything is decided. */
    method LogWebhookEvent(h: nat, fate: Fate) returns (ok: bool)
      requires Enabled(View(), Audit(h, fate))
      modifies this`audit, this`hooks
      ensures View() == Next(old(View()), Audit(h, fate))
      ensures ok <==> hooks[h].phase.Audited?
    {
      hide Castable, Text, Depth, BodyOf;
      var hook := hooks[h];
      var req := hook.body.req;
      var payload := BodyOf(req);
      var foreignKey := req.enquiryId in rows;
      var isJson := |Text(payload)| <= PAYLOAD_LIMIT && Depth(payload) <= NESTING_LIMIT && req.storable;
      CrmAudit.CastableIff(req);
      ok := false;
      if foreignKey && isJson && fate != NotApplied {
        var outcome := Rejected;
        if req.valid { outcome := Received; }
        audit := audit + [AuditRow(h, req.enquiryId, req.valid, outcome)];
        ok := fate == Done;
      }
      hooks := hooks[h := hook.(phase := if ok then Audited else Answered(500))];
    }

    method RefuseHook(h: nat)
      requires Enabled(View(), Refuse(h))
      modifies this`hooks
      ensures View() == Next(old(View()), Refuse(h))
    {
      hooks := hooks[h := hooks[h].(phase := Answered(401))];
    }

    /** SELECT id: not found is an error of its own. */
    method CheckEnquiry(h: nat, ok: bool) returns (found: bool)
      requires Enabled(View(), Check(h))
      modifies this`hooks
      ensures View() == Next(old(View()), if ok then Check(h) else CheckError(h))
      ensures found <==> hooks[h].phase.Checked?
    {
      found := ok && hooks[h].body.req.enquiryId in rows;
      hooks := hooks[h := hooks[h].(phase := if found then Checked else if ok then Answered(404) else Answered(500))];
    }

    method ApplyHook(h: nat, fate: Fate)
      requires Enabled(View(), Apply(h, fate))
      modifies this`rows, this`hooks
      ensures View() == Next(old(View()), Apply(h, fate))
    {
      var req := hooks[h].body.req;
      ghost var was := rows;
      var ok := MarkCrmSynced(req.enquiryId, req.record, req.status, fate);
      assert rows == if fate.NotApplied? then was else Update(was, old(HookWrite(View(), h)));
      hooks := hooks[h := hooks[h].(phase := Answered(if ok then 200 else 500))];
    }

    /** crmWebhookHandler when nothing interleaves: audit, then refuse, then apply. */
    method CrmWebhookHandler(h: nat, auditFate: Fate, selectOk: bool, applyFate: Fate) returns (code: nat)
      requires InHandler(View(), h, Arrived)
      modifies this`rows, this`audit, this`hooks
      ensures hooks == old(hooks)[h := old(hooks[h]).(phase := Answered(code))]
      ensures var req := old(hooks[h]).body.req;
              var known := req.enquiryId in old(rows) && Castable(req);
              var logged := known && auditFate.Done?;
              var written := logged && req.valid && selectOk && applyFate != NotApplied;
              && audit == (if known && auditFate != NotApplied
                           then old(audit) + [AuditRow(h, req.enquiryId, req.valid,
                                                       if req.valid then Received else Rejected)]
                           else old(audit))
              && rows == (if written
                          then old(rows)[req.enquiryId := Row(
                                 if req.status.Some? then req.status.value else old(rows)[req.enquiryId].status,
                                 Some(req.record), Some(queue.now))]
                          else old(rows))
              && (code == 200 <==> written && applyFate.Done?)
              && (code == 401 <==> logged && !req.valid)
              && (code == 200 || code == 401 || code == 500)
    {
      hide Castable;
      var logged := LogWebhookEvent(h, auditFate);
      if logged {
        if !hooks[h].body.req.valid {
          RefuseHook(h);
        } else {
          var found := CheckEnquiry(h, selectOk);
          if found { ApplyHook(h, applyFate); }
        }
      }
      code := hooks[h].phase.code;
    }

    // ------------------------------------------------------------------- the worker

    /** The push: the CRM may not answer; once it has, the record is stored. */
    method PushEnquiryToCrm(id: nat, crmAnswers: bool, fate: Fate) returns (record: Option<string>)
      requires Enabled(View(), Push(id, "")) && WorkerOk(View())
      modifies this`rows, this`pushed
      ensures WorkerOk(View())
      ensures record.Some? <==> crmAnswers && fate.Done?
      ensures crmAnswers && fate != NotApplied ==>
                id in rows && rows[id].record == Some(CrmRecord(id, queue.now))
      ensures record.Some? ==> record.value == "crm_" + Hash.Decimal(id) + "_" + Hash.Decimal(queue.now)
      ensures if crmAnswers && fate != NotApplied
              then exists text :: View() == Next(old(View()), Push(id, text)) && (record.Some? ==> record == Some(text))
              else View() == old(View())
      ensures rows.Keys == old(rows).Keys && id in rows
      ensures forall e :: e in rows ==> rows[e].status == old(rows[e].status) && (e != id ==> rows[e] == old(rows[e]))
      ensures crmAnswers && fate != NotApplied ==>
                id in pushed && rows[id].record.Some? && rows[id].syncedAt == Some(queue.now)
    {
      record := None;
      if crmAnswers {
        var text := CrmRecord(id, queue.now);
        ghost var was := rows;
        WorkerStep(View(), Push(id, text));
        var ok := MarkCrmSynced(id, text, None, fate);
        if fate != NotApplied {
          assert rows == Update(was, Write(id, None, text, None, queue.now));
          pushed := pushed + {id};
          assert View() == Next(old(View()), Push(id, text));
        } else {
          assert rows == was;
        }
        if ok { record := Some(text); }
      }
    }

    method StartJob(id: nat)
      requires Enabled(View(), Queue(Jobs.Take(id))) && WorkerOk(View())
      modifies queue
      ensures View() == Next(old(View()), Queue(Jobs.Take(id)))
      ensures WorkerOk(View()) && Enabled(View(), Push(id, ""))
      ensures id in old(queue.jobs) && id in queue.jobs && queue.jobs[id].made == old(queue.jobs[id].made)
      ensures queue.now == old(queue.now) && queue.events == old(queue.events)
    {
      WorkerStep(View(), Queue(Jobs.Take(id)));
      queue.TakeJob(id);
    }

    method EndJob(id: nat, ok: bool)
      requires Enabled(View(), Queue(if ok then Jobs.Succeed(id) else Jobs.Throw(id))) && WorkerOk(View())
      modifies this`pushed, queue
      ensures View() == Next(old(View()), Queue(if ok then Jobs.Succeed(id) else Jobs.Throw(id)))
      ensures WorkerOk(View()) && queue.now == old(queue.now)
      ensures id in queue.jobs && id in old(queue.jobs)
      ensures var made, job := old(queue.jobs[id].made), queue.jobs[id];
              && (ok ==> job.stage == Jobs.Completed && job.made == made)
              && (!ok ==> job.made == made + 1)
              && (!ok && made == 0 ==> job.stage == Jobs.Delayed(queue.now + 1000))
              && (!ok && made == 1 ==> job.stage == Jobs.Delayed(queue.now + 2000))
              && (!ok && made >= 2 ==> job.stage == Jobs.Failed)
              && queue.events == (if ok || made < 2 then old(queue.events) else old(queue.events) + {id})
    {
      WorkerStep(View(), Queue(if ok then Jobs.Succeed(id) else Jobs.Throw(id)));
      queue.EndAttempt(id, ok);
      pushed := pushed - {id};
    }

    /** One attempt of a sync job from its start to its end: the job completes only with
        the record stored, and is otherwise retried or given up, whether or not the lost
        reply hides a record. */
    method ProcessJob(id: nat, crmAnswers: bool, fate: Fate)
      requires Enabled(View(), Queue(Jobs.Take(id))) && WorkerOk(View())
      modifies this`rows, this`pushed, queue
      ensures queue.View() == Jobs.Next(Jobs.Next(old(queue.View()), Jobs.Take(id)),
                                        if crmAnswers && fate.Done? then Jobs.Succeed(id) else Jobs.Throw(id))
      ensures id in queue.jobs && id in old(queue.jobs)
      ensures var made, job := old(queue.jobs[id].made), queue.jobs[id];
              && (crmAnswers && fate.Done? ==> job.stage == Jobs.Completed && job.made == made)
              && (!(crmAnswers && fate.Done?) ==>
                    && job.made == made + 1
                    && (made == 0 ==> job.stage == Jobs.Delayed(queue.now + 1000))
                    && (made == 1 ==> job.stage == Jobs.Delayed(queue.now + 2000))
                    && (made >= 2 ==> job.stage == Jobs.Failed))
              && queue.events == (if (crmAnswers && fate.Done?) || made < 2 then old(queue.events)
                                  else old(queue.events) + {id})
      ensures rows.Keys == old(rows).Keys && id in rows
      ensures forall e :: e in rows ==> rows[e].status == old(rows[e].status)
      ensures forall e :: e in rows && e != id ==> rows[e] == old(rows[e])
      ensures if crmAnswers && fate != NotApplied
              then rows[id].record.Some? && rows[id].syncedAt == Some(queue.now)
              else rows[id] == old(rows[id])
      ensures WorkerOk(View())
    {
      hide Jobs.Backoff, WorkerOk;
      StartJob(id);
      var record := PushEnquiryToCrm(id, crmAnswers, fate);
      EndJob(id, record.Some?);
    }
  }
}
