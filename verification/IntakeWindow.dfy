/** The idempotency window: while every handler and its stored write finish before the
    claim expires, one claim's window admits one handler and replays its own answer. */
module IntakeWindow {
  import opened Wrappers
  import opened Hash
  import opened Intake
  import opened IntakeSafety
  import opened IntakeKeys

  /** The claim is held and the middleware or the handler still has something to do. */
  predicate Busy(c: Call) {
    && c.claimedAt.Some?
    && (c.phase.Admitted? || InTransaction(c.phase) || c.phase.RollingBack? || c.phase.Committed?
        || c.phase.CrmQueued? || c.phase.EmailQueued? || c.phase.Responding? || c.phase.Storing?)
  }

  /** No handler or stored write outlives its claim. */
  ghost predicate Timely(s: State) {
    forall r :: r in s.calls && Busy(s.calls[r]) ==> s.now < s.calls[r].claimedAt.value + KEY_TTL
  }

  /** When the entry a call wrote expires: its claim's, or its stored answer's. */
  function End(c: Call): nat
    requires c.claimedAt.Some?
  {
    (if c.storedAt.Some? then c.storedAt.value else c.claimedAt.value) + KEY_TTL
  }

  ghost predicate ClocksOk(s: State) {
    forall r :: r in s.calls && s.calls[r].claimedAt.Some? ==>
      && s.calls[r].claimedAt.value <= s.now
      && (s.calls[r].storedAt.Some? ==>
            s.calls[r].claimedAt.value <= s.calls[r].storedAt.value <= s.now)
  }

  /** What an entry says about the call that wrote it. */
  ghost predicate EntriesOk(s: State) {
    forall k :: k in s.idem ==>
      var e := s.idem[k];
      && e.owner in s.calls && s.calls[e.owner].key == Some(k) && s.calls[e.owner].claimedAt.Some?
      && e.expiresAt == End(s.calls[e.owner])
      && (e.slot.Processing? <==> s.calls[e.owner].storedAt.None?)
      && (e.slot.Completed? ==> s.calls[e.owner].answer == Some(e.slot.response))
  }

  /** Inside its window a claim still has its entry. */
  ghost predicate HoldersOk(s: State) {
    forall r :: r in s.calls && s.calls[r].claimedAt.Some? && s.now < End(s.calls[r]) ==>
      s.calls[r].key.Some? && s.calls[r].key.value in s.idem && s.idem[s.calls[r].key.value].owner == r
  }

  /** Windows of one key do not overlap. */
  ghost predicate WindowsOk(s: State) {
    forall q, r :: q in s.calls && r in s.calls && q != r && s.calls[q].key == s.calls[r].key
                   && s.calls[q].claimedAt.Some? && s.calls[r].claimedAt.Some? ==>
      || End(s.calls[q]) <= s.calls[r].claimedAt.value
      || End(s.calls[r]) <= s.calls[q].claimedAt.value
  }

  /** A replay gives the answer stored by the call whose window it falls in, and a refusal
      falls in a window whose call had not stored yet. */
  ghost predicate ReplyOk(s: State, r: nat)
    requires r in s.calls
  {
    match s.calls[r].phase
    case Replayed(a, o, at) =>
      && o in s.calls && s.calls[o].key == s.calls[r].key && s.calls[o].answer == Some(a)
      && s.calls[o].claimedAt.Some? && s.calls[o].storedAt.Some?
      && s.calls[o].storedAt.value <= at < End(s.calls[o])
    case Refused(o, at) =>
      && o in s.calls && s.calls[o].key == s.calls[r].key && s.calls[o].claimedAt.Some?
      && s.calls[o].claimedAt.value <= at < End(s.calls[o])
      && at <= s.now
      && (s.calls[o].storedAt.Some? ==> at <= s.calls[o].storedAt.value)
    case _ => true
  }

  ghost predicate RepliesOk(s: State) {
    forall r :: r in s.calls ==> ReplyOk(s, r)
  }

  ghost predicate WindowInv(s: State) {
    ClocksOk(s) && EntriesOk(s) && HoldersOk(s) && WindowsOk(s) && RepliesOk(s)
  }

  lemma ClocksKept(s: State, t: State, r: nat)
    requires Frame(s, t, r) && KeyEffect(s, t, r) && LocalOk(r, s.calls[r]) && ClocksOk(s)
    ensures ClocksOk(t)
  {}

  lemma EntriesKept(s: State, t: State, r: nat)
    requires Frame(s, t, r) && KeyEffect(s, t, r) && LocalOk(r, s.calls[r]) && EntriesOk(s)
    ensures EntriesOk(t)
  {}

  lemma HoldersKept(s: State, t: State, r: nat)
    requires Frame(s, t, r) && KeyEffect(s, t, r) && LocalOk(r, s.calls[r])
    requires ClocksOk(s) && EntriesOk(s) && HoldersOk(s) && WindowsOk(s)
    requires Busy(s.calls[r]) ==> s.now < s.calls[r].claimedAt.value + KEY_TTL
    ensures HoldersOk(t)
  {
    forall q | q in t.calls && t.calls[q].claimedAt.Some? && t.now < End(t.calls[q])
      ensures t.calls[q].key.Some? && t.calls[q].key.value in t.idem && t.idem[t.calls[q].key.value].owner == q
    {
      if q != r { assert s.calls[q] == t.calls[q]; }
    }
  }

  lemma WindowsKept(s: State, t: State, r: nat)
    requires Frame(s, t, r) && KeyEffect(s, t, r) && LocalOk(r, s.calls[r])
    requires ClocksOk(s) && EntriesOk(s) && HoldersOk(s) && WindowsOk(s)
    requires Busy(s.calls[r]) ==> s.now < s.calls[r].claimedAt.value + KEY_TTL
    ensures WindowsOk(t)
  {
    forall q | q in t.calls && q != r && t.calls[q].key == t.calls[r].key
               && t.calls[q].claimedAt.Some? && t.calls[r].claimedAt.Some?
      ensures End(t.calls[q]) <= t.calls[r].claimedAt.value || End(t.calls[r]) <= t.calls[q].claimedAt.value
    {
      assert t.calls[q] == s.calls[q];
      if s.calls[r].claimedAt.None? {
        assert End(s.calls[q]) <= s.now;
      }
    }
  }

  predicate Replying(p: Phase) { p.Replayed? || p.Refused? }

  /** The new phase of call r reads a live entry of its key. */
  ghost predicate ReadsEntry(s: State, c: Call, p: Phase)
    requires Replying(p)
  {
    && c.key.Some? && Live(s, c.key.value) && p.at == s.now && s.idem[c.key.value].owner == p.owner
    && s.idem[c.key.value].slot == (if p.Replayed? then Completed(p.response) else Processing)
  }

  lemma KeyReply(s: State, r: nat, op: KeyOp)
    requires r in s.calls && KeyEnabled(s.calls[r], op)
    ensures var p := PerformKey(s, r, op).calls[r].phase;
            Replying(p) ==> ReadsEntry(s, s.calls[r], p)
  {}

  lemma TxnReply(s: State, r: nat, op: TxnOp)
    requires r in s.calls && TxnEnabled(s.calls[r], op)
    ensures !Replying(PerformTxn(s, r, op).calls[r].phase)
  {}

  /** The only action that replays or refuses is the GET of a live entry. */
  lemma ReplyStep(s: State, r: nat, op: Op)
    requires r in s.calls && OpEnabled(s, r, op)
    ensures var p := Perform(s, r, op).calls[r].phase;
            Replying(p) ==> ReadsEntry(s, s.calls[r], p)
  {
    hide ReadsEntry, PerformKey, PerformTxn, KeyEnabled, TxnEnabled;
    match op {
      case Key(k) => KeyReply(s, r, k);
      case Txn(x) => TxnReply(s, r, x);
      case _ =>
    }
  }

  lemma ReplyGrows(s: State, t: State, r: nat, q: nat)
    requires Frame(s, t, r) && KeyEffect(s, t, r) && ClocksOk(s)
    requires q in s.calls && q in t.calls && ReplyOk(s, q)
    requires t.calls[q].phase == s.calls[q].phase && t.calls[q].key == s.calls[q].key
    ensures ReplyOk(t, q)
  {}

  lemma ReplyMade(s: State, t: State, r: nat)
    requires Frame(s, t, r) && KeyEffect(s, t, r) && ClocksOk(s) && EntriesOk(s)
    requires Replying(t.calls[r].phase) ==> ReadsEntry(s, s.calls[r], t.calls[r].phase)
    requires s.calls[r].claimedAt.None? || !Replying(t.calls[r].phase)
    ensures ReplyOk(t, r)
  {
    if Replying(t.calls[r].phase) {
      var o := t.calls[r].phase.owner;
      assert s.idem[s.calls[r].key.value].owner == o;
    }
  }

  lemma RepliesKept(s: State, t: State, r: nat)
    requires Frame(s, t, r) && KeyEffect(s, t, r)
    requires ClocksOk(s) && EntriesOk(s) && RepliesOk(s)
    requires Replying(t.calls[r].phase) ==> ReadsEntry(s, s.calls[r], t.calls[r].phase)
    requires s.calls[r].claimedAt.None? || !Replying(t.calls[r].phase)
    ensures RepliesOk(t)
  {
    forall q | q in t.calls ensures ReplyOk(t, q) {
      hide ReplyOk, KeyEffect, ClocksOk, EntriesOk, ReadsEntry;
      if q == r { ReplyMade(s, t, r); } else { ReplyGrows(s, t, r, q); }
    }
  }

  lemma ReplierUnclaimed(s: State, t: State, r: nat)
    requires CallsOk(s) && CallsOk(t) && Frame(s, t, r)
    ensures LocalOk(r, s.calls[r])
    ensures s.calls[r].claimedAt.None? || !Replying(t.calls[r].phase)
  {
    assert LocalOk(r, s.calls[r]) && LocalOk(r, t.calls[r]);
  }

  lemma WindowPerform(s: State, r: nat, op: Op)
    requires Inv(s) && WindowInv(s) && r in s.calls && OpEnabled(s, r, op)
    requires Busy(s.calls[r]) ==> s.now < s.calls[r].claimedAt.value + KEY_TTL
    ensures WindowInv(Perform(s, r, op))
  {
    hide Perform, OpEnabled, RowsOk, IdsOk, UniqueOk, DuplicatesOk, CrmOk, MailOk, CountsOk, KeysOk,
         DigestsOk, ClocksOk, EntriesOk, HoldersOk, WindowsOk, RepliesOk, KeyEffect, RowEffect,
         CrmEffect, MailEffect, CountEffect, IdEffect, Frame, LocalOk, ReadsEntry;
    var t := Perform(s, r, op);
    PerformKept(s, r, op);
    ReplierUnclaimed(s, t, r);
    ClocksKept(s, t, r);
    EntriesKept(s, t, r);
    HoldersKept(s, t, r);
    WindowsKept(s, t, r);
    ReplyStep(s, r, op);
    RepliesKept(s, t, r);
  }

  lemma WindowDo(s: State, r: nat, op: Op)
    requires Inv(s) && WindowInv(s) && Timely(s) && Enabled(s, Do(r, op))
    ensures WindowInv(Next(s, Do(r, op)))
  {
    hide Inv, WindowInv, Perform, OpEnabled;
    WindowPerform(s, r, op);
  }

  lemma WindowArrival(s: State, a: Action)
    requires WindowInv(s) && Enabled(s, a) && a.Arrive?
    ensures WindowInv(Next(s, a))
  {
    hide WindowInv, Fingerprint;
    WindowArrive(s, Next(s, a), a.r);
  }

  lemma WindowElse(s: State, a: Action)
    requires WindowInv(s) && Enabled(s, a) && !a.Do? && !a.Arrive?
    ensures WindowInv(Next(s, a))
  {
    hide WindowInv;
    WindowIdle(s, Next(s, a));
  }

  lemma WindowStep(s: State, a: Action)
    requires Inv(s) && WindowInv(s) && Timely(s) && Enabled(s, a)
    ensures WindowInv(Next(s, a))
  {
    hide Inv, WindowInv, Timely, Next, Enabled;
    if a.Do? {
      WindowDo(s, a.call, a.op);
    } else if a.Arrive? {
      WindowArrival(s, a);
    } else {
      WindowElse(s, a);
    }
  }

  lemma WindowIdle(s: State, t: State)
    requires WindowInv(s) && SameWork(s, t) && s.now <= t.now
    ensures WindowInv(t)
  {
    assert forall r :: r in s.calls && ReplyOk(s, r) ==> ReplyOk(t, r);
  }

  lemma EntriesArrive(s: State, t: State, r: nat)
    requires ClocksOk(s) && EntriesOk(s) && Arrival(s, t, r) && t.calls[r].claimedAt.None?
    ensures ClocksOk(t) && EntriesOk(t)
  {
    hide LocalOk;
  }

  lemma WindowsArrive(s: State, t: State, r: nat)
    requires HoldersOk(s) && WindowsOk(s) && Arrival(s, t, r) && t.calls[r].claimedAt.None?
    ensures HoldersOk(t) && WindowsOk(t)
  {
    hide LocalOk;
  }

  lemma WindowArrive(s: State, t: State, r: nat)
    requires WindowInv(s) && Arrival(s, t, r)
    requires t.calls[r].claimedAt.None?
    ensures WindowInv(t)
  {
    hide LocalOk, ClocksOk, EntriesOk, HoldersOk, WindowsOk, RepliesOk;
    EntriesArrive(s, t, r);
    WindowsArrive(s, t, r);
    RepliesArrive(s, t, r);
  }

  lemma RepliesArrive(s: State, t: State, r: nat)
    requires RepliesOk(s) && Arrival(s, t, r)
    ensures RepliesOk(t)
  {
    hide LocalOk;
    forall q | q in t.calls ensures ReplyOk(t, q) {
      if q != r { assert ReplyOk(s, q); }
    }
  }

  /** A run in which nothing outlives its claim. */
  ghost predicate TimelyRun(tr: seq<State>, acts: seq<Action>) {
    Run(tr, acts) && forall i :: 0 <= i < |tr| ==> Timely(tr[i])
  }

  lemma {:induction false} RunWindow(tr: seq<State>, acts: seq<Action>, i: nat)
    requires TimelyRun(tr, acts) && i < |tr|
    ensures Inv(tr[i]) && WindowInv(tr[i])
  {
    hide Inv, WindowInv, Next, Enabled, Timely;
    RunInv(tr, acts, i);
    if i == 0 {
      WindowStart();
    } else {
      RunWindow(tr, acts, i - 1);
      WindowStep(tr[i - 1], acts[i - 1]);
    }
  }

  lemma WindowStart()
    ensures WindowInv(EMPTY)
  {}

  // -------------------------------------------------------------- main results

  /** Between a claim and the expiry of the entry it wrote, no other call on that key
      claims. */
  lemma OneClaimPerKey(tr: seq<State>, acts: seq<Action>, i: nat, q: nat, r: nat)
    requires TimelyRun(tr, acts) && i < |tr|
    requires q in tr[i].calls && r in tr[i].calls && q != r
    requires tr[i].calls[q].key == tr[i].calls[r].key
    requires tr[i].calls[q].claimedAt.Some? && tr[i].calls[r].claimedAt.Some?
    ensures !(tr[i].calls[q].claimedAt.value <= tr[i].calls[r].claimedAt.value < End(tr[i].calls[q]))
  {
    hide Inv, ClocksOk, EntriesOk, HoldersOk, RepliesOk;
    RunWindow(tr, acts, i);
    ClaimBeforeStore(tr, acts, i, r);
  }

  lemma ClaimBeforeStore(tr: seq<State>, acts: seq<Action>, i: nat, r: nat)
    requires TimelyRun(tr, acts) && i < |tr| && r in tr[i].calls && tr[i].calls[r].claimedAt.Some?
    ensures tr[i].calls[r].claimedAt.value < End(tr[i].calls[r])
  {
    hide Inv, EntriesOk, HoldersOk, WindowsOk, RepliesOk;
    RunWindow(tr, acts, i);
  }

  /** A keyed call that did not claim runs no handler: it makes no row and no job, and
      gives no answer of its own. */
  lemma NoClaimNoHandler(tr: seq<State>, acts: seq<Action>, i: nat, r: nat)
    requires Run(tr, acts) && i < |tr| && r in tr[i].calls
    requires tr[i].calls[r].key.Some? && tr[i].calls[r].claimedAt.None?
    ensures tr[i].calls[r].reached == 0 && tr[i].calls[r].answer.None?
    ensures var p := tr[i].calls[r].phase;
            p.Arrived? || p.ClaimLost? || p.Refused? || p.Replayed? || p.Faulted? || p.Crashed?
  {
    hide RowsOk, IdsOk, UniqueOk, DuplicatesOk, CrmOk, MailOk, CountsOk, KeysOk, DigestsOk;
    RunInv(tr, acts, i);
    assert LocalOk(r, tr[i].calls[r]);
  }

  /** Every replay is the status and body that the claiming call itself answered. */
  lemma ReplayOfOwner(tr: seq<State>, acts: seq<Action>, i: nat, r: nat)
    requires TimelyRun(tr, acts) && i < |tr| && r in tr[i].calls && tr[i].calls[r].phase.Replayed?
    ensures var p := tr[i].calls[r].phase;
            && p.owner in tr[i].calls && p.owner != r && tr[i].calls[r].key.Some?
            && tr[i].calls[p.owner].key == tr[i].calls[r].key
            && tr[i].calls[p.owner].answer == Some(p.response)
            && tr[i].calls[p.owner].claimedAt.Some? && tr[i].calls[p.owner].storedAt.Some?
            && tr[i].calls[p.owner].storedAt.value <= p.at < End(tr[i].calls[p.owner])
  {
    hide RowsOk, IdsOk, UniqueOk, DuplicatesOk, CrmOk, MailOk, CountsOk, KeysOk, DigestsOk,
         ClocksOk, EntriesOk, HoldersOk, WindowsOk;
    RunWindow(tr, acts, i);
    assert LocalOk(r, tr[i].calls[r]) && ReplyOk(tr[i], r);
  }

  /** Between a claim and the expiry of the entry it wrote, no other request to the same path
      with the same Idempotency-Key claims. */
  lemma OneClaimPerWindow(tr: seq<State>, acts: seq<Action>, n: nat, i: nat, j: nat)
    requires TimelyRun(tr, acts) && n < |tr| && i < n && j < n
    requires acts[i].Arrive? && acts[j].Arrive? && acts[i].r != acts[j].r
    requires acts[i].path == acts[j].path && acts[i].header == acts[j].header
    requires acts[i].r in tr[n].calls && acts[j].r in tr[n].calls
    requires tr[n].calls[acts[i].r].claimedAt.Some? && tr[n].calls[acts[j].r].claimedAt.Some?
    ensures var c, d := tr[n].calls[acts[i].r], tr[n].calls[acts[j].r];
            !(c.claimedAt.value <= d.claimedAt.value < End(c))
  {
    hide RedisKey, Next, Enabled, Timely, End;
    KeyOfArrival(tr, acts, n, i);
    KeyOfArrival(tr, acts, n, j);
    OneClaimPerKey(tr, acts, n, acts[i].r, acts[j].r);
  }

  /** A replayed request gets the status and body that one earlier request answered: one to
      the same path with the same Idempotency-Key, inside whose window it falls. */
  lemma ReplayIsOriginal(tr: seq<State>, acts: seq<Action>, n: nat, j: nat) returns (i: nat)
    requires TimelyRun(tr, acts) && n < |tr| && j < n && acts[j].Arrive? && acts[j].r in tr[n].calls
    requires tr[n].calls[acts[j].r].phase.Replayed?
    requires forall x :: 0 <= x < n && acts[x].Arrive? ==> ':' !in acts[x].path
    ensures i < n && acts[i].Arrive? && acts[i].r != acts[j].r && acts[i].r in tr[n].calls
    ensures acts[i].path == acts[j].path && acts[i].header == acts[j].header
    ensures acts[j].header.Some? && acts[j].header.value != ""
    ensures var p, c := tr[n].calls[acts[j].r].phase, tr[n].calls[acts[i].r];
            && c.answer == Some(p.response) && c.storedAt.Some?
            && c.storedAt.value <= p.at < c.storedAt.value + KEY_TTL
  {
    hide RedisKey, Next, Enabled, Timely;
    var r := acts[j].r;
    ReplayOfOwner(tr, acts, n, r);
    i := ArrivalOf(tr, acts, n, tr[n].calls[r].phase.owner);
    KeyOfArrival(tr, acts, n, i);
    KeyOfArrival(tr, acts, n, j);
    KeyPresence(acts[i].path, acts[i].header);
    KeyPresence(acts[j].path, acts[j].header);
    KeyDetermines(acts[i].path, acts[i].header, acts[j].path, acts[j].header);
  }

  /** A refusal falls in a window whose handler had not stored its answer yet. */
  lemma RefusalIsInFlight(tr: seq<State>, acts: seq<Action>, i: nat, r: nat)
    requires TimelyRun(tr, acts) && i < |tr| && r in tr[i].calls && tr[i].calls[r].phase.Refused?
    ensures var p := tr[i].calls[r].phase;
            && p.owner in tr[i].calls && tr[i].calls[p.owner].key == tr[i].calls[r].key
            && tr[i].calls[p.owner].claimedAt.Some?
            && tr[i].calls[p.owner].claimedAt.value <= p.at < End(tr[i].calls[p.owner])
            && (tr[i].calls[p.owner].storedAt.Some? ==> p.at <= tr[i].calls[p.owner].storedAt.value)
  {
    hide Inv, ClocksOk, EntriesOk, HoldersOk, WindowsOk;
    RunWindow(tr, acts, i);
    assert ReplyOk(tr[i], r);
  }
}
