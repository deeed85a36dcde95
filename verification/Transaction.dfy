/** withTransaction (src/config/db.ts): what it sends on its connection on every path, and
    what that leaves in the database. A command that fails does so before or after it
    takes effect; a callback is the writes it sent and whether it then returned. */
module Transaction {
  import opened Wrappers

  type Change = string

  datatype Command = GetConnection | Begin | Statement(change: Change) | Commit | Rollback | Release

  /** How a ROLLBACK ends: done, failed because the session is gone, or failed with the
      session and its writes still open. */
  datatype Rolled = Ended | SessionGone | StillOpen

  datatype Plan = Plan(begin: bool, changes: seq<Change>, body: bool, commit: Fate, rollback: Rolled)

  datatype Cause = NoConnection | BeginFailed | BodyFailed | CommitFailed | RollbackFailed

  datatype Outcome = Returned | Threw(cause: Cause)

  /** `open` has every session of the pool with its uncommitted writes. */
  datatype Db = Db(committed: seq<Change>, open: map<nat, seq<Change>>)

  // ------------------------------------------------------------------ specification

  /** BEGIN commits whatever its session still has open. */
  function BeginEffect(db: Db, c: nat, ok: bool): Db
    requires c in db.open
  {
    if ok then Db(db.committed + db.open[c], db.open[c := []]) else db
  }

  function WriteEffect(db: Db, c: nat, change: Change): Db
    requires c in db.open
  {
    db.(open := db.open[c := db.open[c] + [change]])
  }

  function CommitEffect(db: Db, c: nat, fate: Fate): Db
    requires c in db.open
  {
    if fate.NotApplied? then db else Db(db.committed + db.open[c], db.open[c := []])
  }

  function RollbackEffect(db: Db, c: nat, end: Rolled): Db
    requires c in db.open
  {
    if end.StillOpen? then db else db.(open := db.open[c := []])
  }

  function Statements(changes: seq<Change>): seq<Command> {
    seq(|changes|, i requires 0 <= i < |changes| => Statement(changes[i]))
  }

  predicate Succeeds(p: Plan) { p.begin && p.body && p.commit.Done? }

  /** The callback's writes become permanent. */
  predicate Lands(p: Plan) { p.begin && p.body && !p.commit.NotApplied? }

  function OutcomeOf(p: Plan): Outcome {
    if Succeeds(p) then Returned
    else if !p.rollback.Ended? then Threw(RollbackFailed)
    else if !p.begin then Threw(BeginFailed)
    else if !p.body then Threw(BodyFailed)
    else Threw(CommitFailed)
  }

  function Tried(p: Plan): seq<Command> {
    [Begin] + (if p.begin then Statements(p.changes) else []) + (if p.begin && p.body then [Commit] else [])
  }

  function Commands(p: Plan): seq<Command> {
    [GetConnection] + Tried(p) + (if Succeeds(p) then [] else [Rollback]) + [Release]
  }

  function Begun(db: Db, c: nat, p: Plan): Db
    requires c in db.open
  {
    if p.begin then Db(db.committed + db.open[c], db.open[c := p.changes]) else db
  }

  lemma BegunKeys(db: Db, c: nat, p: Plan)
    requires c in db.open
    ensures Begun(db, c, p).open.Keys == db.open.Keys
    ensures Begun(db, c, p).open[c := []] == db.open[c := []]
  {}

  function After(db: Db, c: nat, p: Plan): Db
    requires c in db.open
  {
    var begun := Begun(db, c, p);
    if Lands(p) then Db(begun.committed + p.changes, db.open[c := []])
    else if p.rollback.StillOpen? then begun
    else begun.(open := db.open[c := []])
  }

  // ----------------------------------------------------------- the code, as effects

  class Pool {
    var committed: seq<Change>
    var open: map<nat, seq<Change>>
    var free: set<nat>
    var log: seq<Command>

    ghost function View(): Db
      reads this
    {
      Db(committed, open)
    }

    ghost predicate Valid()
      reads this
    {
      free <= open.Keys
    }

    constructor (sessions: set<nat>)
      ensures Valid() && free == sessions && View() == Db([], map c | c in sessions :: []) && log == []
    {
      committed, open, free, log := [], map c | c in sessions :: [], sessions, [];
    }

    method BeginOn(c: nat, ok: bool)
      requires c in open
      modifies this`committed, this`open, this`log
      ensures log == old(log) + [Begin]
      ensures View() == BeginEffect(old(View()), c, ok)
    {
      log := log + [Begin];
      if ok {
        committed := committed + open[c];
        open := open[c := []];
      }
    }

    /** The callback's writes, one after the other. */
    method CallBody(c: nat, changes: seq<Change>)
      requires c in open
      modifies this`open, this`log
      ensures log == old(log) + Statements(changes)
      ensures open == old(open)[c := old(open)[c] + changes]
    {
      var i := 0;
      while i < |changes|
        invariant 0 <= i <= |changes| && c in open
        invariant log == old(log) + Statements(changes[..i])
        invariant open.Keys == old(open).Keys && open[c] == old(open)[c] + changes[..i]
        invariant forall e :: e in open && e != c ==> open[e] == old(open)[e]
      {
        assert changes[..i + 1] == changes[..i] + [changes[i]];
        log := log + [Statement(changes[i])];
        open := open[c := open[c] + [changes[i]]];
        i := i + 1;
      }
      assert changes[..i] == changes;
      assert open == old(open)[c := old(open)[c] + changes];
    }

    method CommitOn(c: nat, fate: Fate)
      requires c in open
      modifies this`committed, this`open, this`log
      ensures log == old(log) + [Commit]
      ensures View() == CommitEffect(old(View()), c, fate)
    {
      log := log + [Commit];
      if fate != NotApplied {
        committed := committed + open[c];
        open := open[c := []];
      }
    }

    method RollbackOn(c: nat, end: Rolled)
      requires c in open
      modifies this`open, this`log
      ensures log == old(log) + [Rollback]
      ensures View() == RollbackEffect(old(View()), c, end)
    {
      log := log + [Rollback];
      if end != StillOpen { open := open[c := []]; }
    }

    /** The try block: what was thrown, if anything. */
    method TryOn(c: nat, p: Plan) returns (failed: Option<Cause>)
      requires c in open
      modifies this`committed, this`open, this`log
      ensures log == old(log) + Tried(p)
      ensures View() == if Lands(p) then Db(Begun(old(View()), c, p).committed + p.changes, old(open)[c := []])
                        else Begun(old(View()), c, p)
      ensures failed == if !p.begin then Some(BeginFailed) else if !p.body then Some(BodyFailed)
                        else if p.commit != Done then Some(CommitFailed) else None
    {
      failed := None;
      BeginOn(c, p.begin);
      if !p.begin { return Some(BeginFailed); }
      CallBody(c, p.changes);
      assert open[c] == p.changes;
      assert open == old(open)[c := p.changes];
      if !p.body { return Some(BodyFailed); }
      CommitOn(c, p.commit);
      assert p.commit != NotApplied ==> open == old(open)[c := []];
      if p.commit != Done { failed := Some(CommitFailed); }
    }

    /** try, catch and finally: the connection is back on every path, the commands sent and
        the database left are those below, and a failing ROLLBACK replaces the error. */
    method WithTransaction(connection: Option<nat>, p: Plan) returns (outcome: Outcome)
      requires Valid() && (connection.Some? ==> connection.value in free)
      modifies this
      ensures Valid() && free == old(free)
      ensures connection.None? ==>
                outcome == Threw(NoConnection) && View() == old(View()) && log == old(log) + [GetConnection]
      ensures connection.Some? ==>
                && outcome == OutcomeOf(p)
                && (outcome == Returned <==> p.begin && p.body && p.commit == Done)
                && (p.begin && !p.body && p.rollback == Ended ==> outcome == Threw(BodyFailed))
                && View() == After(old(View()), connection.value, p)
                && log == old(log) + Commands(p)
    {
      hide Tried, Statements, Begun;
      log := log + [GetConnection];
      if connection.None? { return Threw(NoConnection); }
      var c := connection.value;
      BegunKeys(View(), c, p);
      free := free - {c};
      var failed := TryOn(c, p);
      outcome := Returned;
      if failed.Some? {
        RollbackOn(c, p.rollback);
        outcome := Threw(if p.rollback.Ended? then failed.value else RollbackFailed);
      }
      log := log + [Release];
      free := free + {c};
    }
  }

  // ------------------------------------------------------------------- main results

  /** The order of effects on every path: one connection, taken first and released last;
      COMMIT exactly when nothing failed before it; one ROLLBACK exactly when something
      failed, as the last command before the release. */
  lemma CommandOrder(p: Plan)
    ensures var cs := Commands(p);
            && |cs| >= 3 && cs[0] == GetConnection && cs[1] == Begin && cs[|cs| - 1] == Release
            && (forall i :: 0 < i < |cs| ==> cs[i] != GetConnection)
            && (forall i :: 0 <= i < |cs| - 1 ==> cs[i] != Release)
            && (Commit in cs <==> p.begin && p.body)
            && (Rollback in cs <==> OutcomeOf(p) != Returned)
            && (forall i :: 0 <= i < |cs| && cs[i] == Rollback ==> i == |cs| - 2)
            && (forall i, j :: 0 <= i < j < |cs| && cs[i] == Commit ==> cs[j] == Rollback || cs[j] == Release)
  {
    var body := if p.begin then Statements(p.changes) else [];
    assert Tried(p) == [Begin] + body + (if p.begin && p.body then [Commit] else []);
    Ordered(body, p.begin && p.body, OutcomeOf(p) != Returned, Commands(p));
  }

  lemma Ordered(body: seq<Command>, commit: bool, failed: bool, cs: seq<Command>)
    requires forall i :: 0 <= i < |body| ==> body[i].Statement?
    requires commit || failed
    requires cs == [GetConnection] + ([Begin] + body + (if commit then [Commit] else []))
                   + (if failed then [Rollback] else []) + [Release]
    ensures |cs| >= 3 && cs[0] == GetConnection && cs[1] == Begin && cs[|cs| - 1] == Release
    ensures forall i :: 0 < i < |cs| ==> cs[i] != GetConnection
    ensures forall i :: 0 <= i < |cs| - 1 ==> cs[i] != Release
    ensures Commit in cs <==> commit
    ensures Rollback in cs <==> failed
    ensures forall i :: 0 <= i < |cs| && cs[i] == Rollback ==> i == |cs| - 2
    ensures forall i, j :: 0 <= i < j < |cs| && cs[i] == Commit ==> cs[j] == Rollback || cs[j] == Release
  {
    var n := 2 + |body|;
    assert forall i :: 2 <= i < n ==> cs[i] == body[i - 2] && cs[i].Statement?;
    if commit { assert cs[n] == Commit; }
    if failed { assert cs[|cs| - 2] == Rollback; }
    assert |cs| == n + (if commit then 1 else 0) + (if failed then 1 else 0) + 1;
  }

  /** Between BEGIN and the end come the callback's statements, all of them and in order. */
  lemma StatementsInOrder(p: Plan)
    requires p.begin
    ensures |Commands(p)| >= 2 + |p.changes|
    ensures forall i :: 0 <= i < |p.changes| ==> Commands(p)[2 + i] == Statement(p.changes[i])
    ensures 2 + |p.changes| < |Commands(p)| && !Commands(p)[2 + |p.changes|].Statement?
  {
    var body := Statements(p.changes);
    var tail := (if p.body then [Commit] else []) + (if Succeeds(p) then [] else [Rollback]) + [Release];
    assert Commands(p) == [GetConnection, Begin] + body + tail;
  }

  /** Which error the caller gets: that of the first command that failed, or that of a
      failing ROLLBACK in its place. */
  lemma ErrorIsTheFirst(p: Plan)
    ensures var failed := !p.begin || !p.body || p.commit != Done;
            && (OutcomeOf(p) == Returned <==> !failed)
            && (OutcomeOf(p) == Threw(RollbackFailed) <==> failed && p.rollback != Ended)
            && (OutcomeOf(p) == Threw(BeginFailed) <==> !p.begin && p.rollback == Ended)
            && (OutcomeOf(p) == Threw(BodyFailed) <==> p.begin && !p.body && p.rollback == Ended)
            && (OutcomeOf(p) == Threw(CommitFailed) <==>
                  p.begin && p.body && p.commit != Done && p.rollback == Ended)
            && OutcomeOf(p) != Threw(NoConnection)
  {}

  /** No session holds writes of a transaction that is over. */
  ghost predicate Clean(db: Db) { forall c :: c in db.open ==> db.open[c] == [] }

  /** A rejected transaction that leaves its writes behind on the released connection. */
  predicate LeavesOpen(p: Plan) {
    p.begin && !Lands(p) && p.rollback.StillOpen? && p.changes != []
  }

  /** All or nothing on a clean pool: a returned call has made all its writes permanent, a
      rejected one none, unless only the answer to its COMMIT was lost. The pool stays
      clean exactly when the ROLLBACK does not fail on a session that lives on. */
  lemma AllOrNothing(db: Db, c: nat, p: Plan)
    requires Clean(db) && c in db.open
    ensures var t := After(db, c, p);
            && t.committed == db.committed + (if Lands(p) then p.changes else [])
            && (OutcomeOf(p) == Returned ==> Lands(p))
            && (OutcomeOf(p) != Returned && Lands(p) ==> p.commit == ReplyLost)
            && t.open.Keys == db.open.Keys
            && (Clean(t) <==> !LeavesOpen(p))
  {
    var t := After(db, c, p);
    assert db.committed + [] == db.committed;
    if LeavesOpen(p) { assert t.open[c] == p.changes; }
  }

  /** What happens otherwise: the next transaction that begins on that connection makes
      the abandoned writes permanent, whatever becomes of it. */
  lemma LeftOpenIsCommitted(db: Db, c: nat, p: Plan, q: Plan)
    requires Clean(db) && c in db.open && LeavesOpen(p) && q.begin
    ensures OutcomeOf(p) == Threw(RollbackFailed)
    ensures db.committed + p.changes <= After(After(db, c, p), c, q).committed
  {
    assert db.committed + [] == db.committed;
  }
}
