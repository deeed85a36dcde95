/** The code of enquiry intake over the shared stores it updates in place: each method
    runs from one await to the next and is proved to be one action of the protocol. */
module IntakeService {
  import opened Wrappers
  import opened Hash
  import opened Intake

  class Service {
    var now: nat
    var idem: map<string, Entry>
    var published: set<nat>
    var nextId: nat
    var rows: map<nat, Row>
    var crmJobs: set<nat>
    var emails: seq<EmailJob>
    var created: nat
    var duplicates: nat
    var calls: map<nat, Call>

    ghost function View(): State
      reads this
    {
      State(now, idem, published, nextId, rows, crmJobs, emails, created, duplicates, calls)
    }

    ghost predicate Can(r: nat, op: Op)
      reads this
    {
      r in calls && OpEnabled(View(), r, op)
    }

    constructor ()
      ensures View() == EMPTY
    {
      now, idem, published, nextId, rows := 0, map[], {}, 1, map[];
      crmJobs, emails, created, duplicates, calls := {}, [], 0, 0, map[];
    }

    // ------------------------------------------------- the idempotency middleware

    /** A request reaches the route. */
    method Receive(r: nat, path: string, header: Option<string>, body: Option<EnquiryInput>)
      requires Enabled(View(), Arrive(r, path, header, body))
      modifies this`calls
      ensures View() == Next(old(View()), Arrive(r, path, header, body))
      ensures r in calls && calls[r].phase == Arrived && calls[r].body == body
      ensures calls[r].key.None? <==> header.None? || header.value == ""
      ensures header.Some? && header.value != "" ==>
                calls[r].key == Some("idempotency:" + path + ":" + header.value)
    {
      var digest := Sha256("");
      if body.Some? { digest := FingerprintEnquiry(body.value); }
      var key := if header.None? || header.value == "" then None
                 else Some("idempotency:" + path + ":" + header.value);
      calls := calls[r := Call(key, body, digest, Arrived, 0, None, None, None, None)];
    }

    /** SET key processing EX ttl NX; answers whether next() was called. */
    method ClaimKey(r: nat) returns (admitted: bool)
      requires Can(r, Key(Enter))
      modifies this`idem, this`calls
      ensures View() == Perform(old(View()), r, Key(Enter))
      ensures admitted <==> calls[r].phase.Admitted?
      ensures var key := old(calls[r]).key;
              && (key.None? ==> admitted && idem == old(idem))
              && (key.Some? ==>
                    && (admitted <==> key.value !in old(idem) || now >= old(idem)[key.value].expiresAt)
                    && idem == (if admitted then old(idem)[key.value := Entry(Processing, now + 86400, r)]
                                else old(idem)))
    {
      var c := calls[r];
      if c.key.None? {
        calls := calls[r := c.(phase := Admitted)];
        return true;
      }
      var k := c.key.value;
      if k in idem && now < idem[k].expiresAt {
        calls := calls[r := c.(phase := ClaimLost)];
        return false;
      }
      idem := idem[k := Entry(Processing, now + KEY_TTL, r)];
      calls := calls[r := c.(phase := Admitted, claimedAt := Some(now))];
      return true;
    }

    /** GET after a lost claim: refuse, replay, or fault on a key that expired meanwhile. */
    method LookUpKey(r: nat) returns (reply: Option<Response>)
      requires Can(r, Key(LookUp))
      modifies this`calls
      ensures View() == Perform(old(View()), r, Key(LookUp))
      ensures reply.Some? <==> calls[r].phase.Replayed?
      ensures reply.Some? ==> calls[r].phase.response == reply.value
      ensures var k := old(calls[r]).key.value;
              var live := k in idem && now < idem[k].expiresAt;
              && (reply.Some? <==> live && idem[k].slot.Completed?)
              && (reply.Some? ==> reply.value == idem[k].slot.response)
              && (calls[r].phase.Refused? <==> live && idem[k].slot.Processing?)
              && (calls[r].phase.Faulted? <==> !live)
    {
      var c := calls[r];
      var k := c.key.value;
      reply := None;
      if k in idem && now < idem[k].expiresAt {
        var e := idem[k];
        match e.slot {
          case Processing => calls := calls[r := c.(phase := Refused(e.owner, now))];
          case Completed(a) =>
            calls := calls[r := c.(phase := Replayed(a, e.owner, now))];
            reply := Some(a);
        }
      } else {
        calls := calls[r := c.(phase := Faulted)];
      }
    }

    /** res.json: the answer leaves, and a keyed call starts its SET. */
    method Reply(r: nat)
      requires Can(r, Key(Respond))
      modifies this`calls
      ensures View() == Perform(old(View()), r, Key(Respond))
      ensures calls[r].answer == Some(old(calls[r].phase.response))
      ensures calls[r].phase == if old(calls[r]).key.Some? then Storing else Finished
    {
      var c := calls[r];
      var sent := c.(answer := Some(c.phase.response));
      calls := calls[r := sent.(phase := if c.key.Some? then Storing else Finished)];
    }

    /** The SET of the stored answer lands; it overwrites whatever the key holds. */
    method StoreAnswer(r: nat)
      requires Can(r, Key(Store))
      modifies this`idem, this`calls
      ensures View() == Perform(old(View()), r, Key(Store))
      ensures var c := old(calls[r]);
              idem == old(idem)[c.key.value := Entry(Completed(c.answer.value), now + 86400, r)]
      ensures calls[r].phase == Finished
    {
      var c := calls[r];
      idem := idem[c.key.value := Entry(Completed(c.answer.value), now + KEY_TTL, r)];
      calls := calls[r := c.(phase := Finished, storedAt := Some(now))];
    }

    // ------------------------------------------------------- inside the transaction

    /** Opens the transaction and looks for the published property. */
    method BeginWork(r: nat) returns (found: bool)
      requires Can(r, Txn(Begin))
      modifies this`calls
      ensures View() == Perform(old(View()), r, Txn(Begin))
      ensures found <==> calls[r].phase.InTxn?
    {
      var c := calls[r];
      found := c.body.value.propertyId in published;
      calls := calls[r := c.(phase := if found then InTxn else RollingBack(404))];
    }

    /** The INSERT takes the next auto-increment value, which no rollback gives back. */
    method DrawRowId(r: nat)
      requires Can(r, Txn(DrawId))
      modifies this`nextId, this`calls
      ensures View() == Perform(old(View()), r, Txn(DrawId))
    {
      calls := calls[r := calls[r].(phase := Inserting(nextId))];
      nextId := nextId + 1;
    }

    /** The unique index: no row if the fingerprint is committed. */
    method InsertRow(r: nat) returns (inserted: bool)
      requires Can(r, Txn(PassUnique))
      modifies this`calls
      ensures View() == Perform(old(View()), r, Txn(PassUnique))
      ensures inserted <==> calls[r].phase.Inserted?
    {
      var c := calls[r];
      inserted := !(exists id :: id in rows && rows[id].digest == c.digest);
      calls := calls[r := c.(phase := if inserted then Inserted(c.phase.id) else RollingBack(409))];
    }

    method Fail(r: nat)
      requires Can(r, Txn(DbError))
      modifies this`calls
      ensures View() == Perform(old(View()), r, Txn(DbError))
    {
      calls := calls[r := calls[r].(phase := RollingBack(500))];
    }

    method CommitWork(r: nat, fate: Fate)
      requires Can(r, Txn(Commit))
      modifies this`rows, this`calls
      ensures View() == Perform(old(View()), r,
                          match fate case Done => Txn(Commit)
                                     case NotApplied => Txn(CommitError(false))
                                     case ReplyLost => Txn(CommitError(true)))
    {
      var c := calls[r];
      var d := c;
      if fate != NotApplied {
        rows := rows[c.phase.id := Row(c.digest, c.body.value, r)];
        d := c.(row := Some(c.phase.id), reached := 1);
      }
      calls := calls[r := d.(phase := if fate.Done? then Committed else RollingBack(500))];
    }

    /** ROLLBACK and the catch block that maps the error; a failing ROLLBACK throws its
        own error instead. */
    method RollBackWork(r: nat, ok: bool)
      requires Can(r, Txn(Rollback(ok)))
      modifies this`duplicates, this`calls
      ensures View() == Perform(old(View()), r, Txn(Rollback(ok)))
    {
      var c := calls[r];
      var code := if ok then c.phase.code else 500;
      if code == 409 { duplicates := duplicates + 1; }
      calls := calls[r := c.(phase := Responding(Error(code, r)))];
    }

    // ----------------------------------------------------------- after the commit

    method EnqueueCrmSync(r: nat, fate: Fate)
      requires Can(r, Work(AddCrm))
      modifies this`crmJobs, this`calls
      ensures View() == Perform(old(View()), r,
                          match fate case Done => Work(AddCrm)
                                     case NotApplied => Work(AddCrmError(false))
                                     case ReplyLost => Work(AddCrmError(true)))
    {
      var c := calls[r];
      var d := c;
      if fate != NotApplied {
        crmJobs := crmJobs + {c.row.value};
        d := c.(reached := 2);
      }
      calls := calls[r := d.(phase := if fate.Done? then CrmQueued else Responding(Error(500, r)))];
    }

    method EnqueueEmail(r: nat, fate: Fate)
      requires Can(r, Work(AddEmail))
      modifies this`emails, this`calls
      ensures View() == Perform(old(View()), r,
                          match fate case Done => Work(AddEmail)
                                     case NotApplied => Work(AddEmailError(false))
                                     case ReplyLost => Work(AddEmailError(true)))
    {
      var c := calls[r];
      var d := c;
      if fate != NotApplied {
        emails := emails + [EmailJob(c.row.value, c.body.value.email)];
        d := c.(reached := 3);
      }
      calls := calls[r := d.(phase := if fate.Done? then EmailQueued else Responding(Error(500, r)))];
    }

    method CountCreated(r: nat)
      requires Can(r, Work(Count))
      modifies this`created, this`calls
      ensures View() == Perform(old(View()), r, Work(Count))
    {
      var c := calls[r];
      created := created + 1;
      calls := calls[r := c.(phase := Responding(Created(c.row.value, c.body.value)), reached := 4)];
    }

    // ------------------------------------------------ createEnquiry from end to end

    /** The statements of the transaction with no other call in between. */
    method RunStatements(r: nat)
      requires Can(r, Txn(Begin)) && !Blocked(View(), r)
      modifies this`nextId, this`calls
      ensures r in calls
      ensures var c := old(calls[r]);
              calls == old(calls)[r := c.(phase :=
                if c.body.value.propertyId !in published then RollingBack(404)
                else if old(Taken(View(), c.digest)) then RollingBack(409)
                else Inserted(old(nextId)))]
    {
      var found := BeginWork(r);
      if found {
        assert calls == old(calls)[r := calls[r]];
        DrawRowId(r);
        assert !Blocked(View(), r) by {
          assert forall q :: q in calls && q != r ==> q in old(calls) && calls[q] == old(calls[q]);
        }
        var _ := InsertRow(r);
      }
    }

    /** The transaction of one call with no other call in between: the row goes in when
        the property is published, the enquiry is new and the commit takes effect. */
    method InsertInTransaction(r: nat, commit: Fate, rollbackOk: bool)
      requires Can(r, Txn(Begin)) && calls[r].row.None? && calls[r].answer.None?
      requires !Blocked(View(), r)
      modifies this`nextId, this`rows, this`duplicates, this`calls
      ensures r in calls && calls[r].body == old(calls[r].body)
      ensures forall q :: q in old(calls) && q != r ==> q in calls && calls[q] == old(calls[q])
      ensures var c, d := old(calls[r]), calls[r];
              var here := c.body.value.propertyId in published;
              var known := old(Taken(View(), c.digest));
              var rowIn := here && !known && commit != NotApplied;
              && rows == (if rowIn then old(rows)[old(nextId) := Row(c.digest, c.body.value, r)] else old(rows))
              && (d.phase.Committed? <==> here && !known && commit.Done?)
              && (d.phase.Committed? ==> d.row == Some(old(nextId)))
              && (!d.phase.Committed? ==>
                    d.phase == Responding(Error(if !rollbackOk then 500 else if !here then 404
                                                else if known then 409 else 500, r)))
              && duplicates == old(duplicates) + (if here && known && rollbackOk then 1 else 0)
    {
      hide Taken, Blocked;
      RunStatements(r);
      if calls[r].phase.Inserted? { CommitWork(r, commit); }
      if calls[r].phase.RollingBack? { RollBackWork(r, rollbackOk); }
    }

    /** After the commit: CRM job, then email, then counter, stopping at the first error. */
    method QueueWorkFor(r: nat, crm: Fate, email: Fate)
      requires Can(r, Work(AddCrm))
      modifies this`crmJobs, this`emails, this`created, this`calls
      ensures r in calls && calls[r].phase.Responding?
      ensures forall q :: q in old(calls) && q != r ==> q in calls && calls[q] == old(calls[q])
      ensures var id, input := old(calls[r].row.value), old(calls[r].body.value);
              var mailIn := crm.Done? && email != NotApplied;
              && crmJobs == (if crm != NotApplied then old(crmJobs) + {id} else old(crmJobs))
              && emails == (if mailIn then old(emails) + [EmailJob(id, input.email)] else old(emails))
              && calls[r].phase.response ==
                   (if crm.Done? && email.Done? then Created(id, input) else Error(500, r))
              && created == old(created) + (if crm.Done? && email.Done? then 1 else 0)
    {
      EnqueueCrmSync(r, crm);
      if calls[r].phase.CrmQueued? {
        EnqueueEmail(r, email);
        if calls[r].phase.EmailQueued? { CountCreated(r); }
      }
    }

    /** createEnquiry when nothing interleaves. The 201 comes only with the row, both jobs
        and the count; every other answer leaves the later stores alone. */
    method CreateEnquiry(r: nat, commit: Fate, rollbackOk: bool, crm: Fate, email: Fate)
      returns (answer: Response)
      requires Can(r, Txn(Begin)) && calls[r].row.None? && calls[r].answer.None?
      requires !Blocked(View(), r)
      modifies this`nextId, this`rows, this`duplicates, this`crmJobs, this`emails, this`created, this`calls
      ensures r in calls && calls[r].phase == Responding(answer)
      ensures forall q :: q in old(calls) && q != r ==> q in calls && calls[q] == old(calls[q])
      ensures var c := old(calls[r]);
              var id := old(nextId);
              var input := c.body.value;
              var here := input.propertyId in published;
              var known := old(Taken(View(), c.digest));
              var rowIn := here && !known && commit != NotApplied;
              var crmIn := here && !known && commit.Done? && crm != NotApplied;
              var mailIn := crmIn && crm.Done? && email != NotApplied;
              && rows == (if rowIn then old(rows)[id := Row(c.digest, input, r)] else old(rows))
              && crmJobs == (if crmIn then old(crmJobs) + {id} else old(crmJobs))
              && emails == (if mailIn then old(emails) + [EmailJob(id, input.email)] else old(emails))
              && created == old(created) + (if answer.Created? then 1 else 0)
              && (answer.Created? <==> mailIn && email.Done?)
              && (answer.Created? ==> answer == Created(id, input))
              && (answer == Error(404, r) <==> !here && rollbackOk)
              && (answer == Error(409, r) <==> here && known && rollbackOk)
              && (answer.Error? ==> answer == Error(404, r) || answer == Error(409, r) || answer == Error(500, r))
              && duplicates == old(duplicates) + (if answer == Error(409, r) then 1 else 0)
    {
      InsertInTransaction(r, commit, rollbackOk);
      if calls[r].phase.Committed? { QueueWorkFor(r, crm, email); }
      answer := calls[r].phase.response;
    }
  }
}
