/** One BullMQ queue with its retries and dead letters (src/queues/queue.config.ts and the
    two workers): what happens to each job over every run. Times are milliseconds. */
module Jobs {

  /** defaultJobOptions. */
  const ATTEMPTS: nat := 3
  const DELAY: nat := 1000

  datatype Stage = Waiting | Active | Delayed(until: nat) | Completed | Failed

  /** `made` counts finished failed attempts; `started` and `waits` are history variables:
      attempts begun, and the backoff delays slept. */
  datatype Job = Job(stage: Stage, made: nat, started: nat, waits: seq<nat>)

  /** `events` are terminal-failure events not yet handled, `lost` those no listener
      handled. */
  datatype State = State(now: nat, jobs: map<nat, Job>, events: set<nat>, dead: seq<nat>, lost: set<nat>)

  const EMPTY := State(0, map[], {}, [], {})

  datatype Action =
    | Add(id: nat)          // Queue.add with this job id
    | Take(id: nat)         // a worker starts an attempt
    | Succeed(id: nat)
    | Throw(id: nat)        // the processor rejects
    | Promote(id: nat)      // the backoff has passed
    | HandOff(id: nat)      // the failed-event handler adds the dead letter
    | LoseEvent(id: nat)    // the handler's add fails, or nobody listens
    | Tick(d: nat)

  function Pow2(n: nat): nat { if n == 0 then 1 else 2 * Pow2(n - 1) }

  /** Exponential backoff before the retry that follows the n-th failure. */
  function Backoff(n: nat): nat
    requires n > 0
  {
    DELAY * Pow2(n - 1)
  }

  predicate Enabled(s: State, a: Action) {
    match a
    case Add(_) => true
    case Take(id) => id in s.jobs && s.jobs[id].stage.Waiting?
    case Succeed(id) => id in s.jobs && s.jobs[id].stage.Active?
    case Throw(id) => id in s.jobs && s.jobs[id].stage.Active?
    case Promote(id) => id in s.jobs && s.jobs[id].stage.Delayed? && s.jobs[id].stage.until <= s.now
    case HandOff(id) => id in s.events
    case LoseEvent(id) => id in s.events
    case Tick(_) => true
  }

  function Put(s: State, id: nat, j: Job): State { s.(jobs := s.jobs[id := j]) }

  function Next(s: State, a: Action): State
    requires Enabled(s, a)
  {
    match a
    case Add(id) => if id in s.jobs then s else Put(s, id, Job(Waiting, 0, 0, []))
    case Take(id) => Put(s, id, s.jobs[id].(stage := Active, started := s.jobs[id].started + 1))
    case Succeed(id) => Put(s, id, s.jobs[id].(stage := Completed))
    case Throw(id) =>
      var j := s.jobs[id];
      var made := j.made + 1;
      if made < ATTEMPTS then
        Put(s, id, j.(stage := Delayed(s.now + Backoff(made)), made := made, waits := j.waits + [Backoff(made)]))
      else
        Put(s, id, j.(stage := Failed, made := made)).(events := s.events + {id})
    case Promote(id) => Put(s, id, s.jobs[id].(stage := Waiting))
    case HandOff(id) => s.(events := s.events - {id}, dead := s.dead + [id])
    case LoseEvent(id) => s.(events := s.events - {id}, lost := s.lost + {id})
    case Tick(d) => s.(now := s.now + d)
  }

  ghost predicate Run(tr: seq<State>, acts: seq<Action>) {
    && |tr| == |acts| + 1 && tr[0] == EMPTY
    && forall i :: 0 <= i < |acts| ==> Enabled(tr[i], acts[i]) && tr[i + 1] == Next(tr[i], acts[i])
  }

  // ------------------------------------------------------------------- invariants

  /** The delays slept by the time n attempts have failed. */
  function Slept(n: nat): seq<nat> {
    if n == 0 then [] else Slept(n - 1) + [Backoff(n)]
  }

  predicate JobOk(j: Job) {
    match j.stage
    case Waiting => j.made < ATTEMPTS && j.started == j.made && j.waits == Slept(j.made)
    case Active => j.made < ATTEMPTS && j.started == j.made + 1 && j.waits == Slept(j.made)
    case Delayed(_) => 0 < j.made < ATTEMPTS && j.started == j.made && j.waits == Slept(j.made)
    case Completed => j.made < ATTEMPTS && j.started == j.made + 1 && j.waits == Slept(j.made)
    case Failed => j.made == ATTEMPTS && j.started == ATTEMPTS && j.waits == Slept(ATTEMPTS - 1)
  }

  function FailedJobs(s: State): set<nat> {
    set id | id in s.jobs && s.jobs[id].stage.Failed?
  }

  function DeadLetters(s: State): set<nat> { Elems(s.dead) }

  function Elems(ids: seq<nat>): set<nat> { set id | id in ids }

  ghost predicate Inv(s: State) {
    && (forall id :: id in s.jobs ==> JobOk(s.jobs[id]))
    && FailedJobs(s) == s.events + DeadLetters(s) + s.lost
    && s.events !! DeadLetters(s) && s.events !! s.lost && DeadLetters(s) !! s.lost
    && (forall i, j :: 0 <= i < j < |s.dead| ==> s.dead[i] != s.dead[j])
  }

  lemma JobsStep(s: State, a: Action)
    requires Inv(s) && Enabled(s, a)
    ensures forall id :: id in Next(s, a).jobs ==> JobOk(Next(s, a).jobs[id])
  {
    hide FailedJobs, DeadLetters;
  }

  lemma LettersStep(s: State, a: Action)
    requires Inv(s) && Enabled(s, a)
    ensures var t := Next(s, a);
            && FailedJobs(t) == s.events + DeadLetters(s) + s.lost + (FailedJobs(t) - FailedJobs(s))
            && t.events + DeadLetters(t) + t.lost ==
                 s.events + DeadLetters(s) + s.lost + (FailedJobs(t) - FailedJobs(s))
  {
    hide Slept, Backoff;
    var t := Next(s, a);
    match a {
      case Throw(id) =>
        assert FailedJobs(t) == FailedJobs(s) + (if t.jobs[id].stage.Failed? then {id} else {});
        assert DeadLetters(t) == DeadLetters(s);
      case HandOff(id) =>
        assert FailedJobs(t) == FailedJobs(s);
        assert DeadLetters(t) == DeadLetters(s) + {id};
      case _ =>
        assert FailedJobs(t) == FailedJobs(s);
        assert DeadLetters(t) == DeadLetters(s);
    }
  }

  lemma InvStep(s: State, a: Action)
    requires Inv(s) && Enabled(s, a)
    ensures Inv(Next(s, a))
  {
    hide Slept, Backoff;
    var t := Next(s, a);
    JobsStep(s, a);
    LettersStep(s, a);
    match a {
      case Throw(id) =>
        assert id !in FailedJobs(s);
        assert DeadLetters(t) == DeadLetters(s);
      case HandOff(id) =>
        assert id in s.events && id !in DeadLetters(s);
        assert DeadLetters(t) == DeadLetters(s) + {id};
      case _ =>
        assert DeadLetters(t) == DeadLetters(s);
    }
  }

  lemma {:induction false} RunInv(tr: seq<State>, acts: seq<Action>, i: nat)
    requires Run(tr, acts) && i < |tr|
    ensures Inv(tr[i])
  {
    if i > 0 {
      hide Next, Enabled, Inv;
      RunInv(tr, acts, i - 1);
      InvStep(tr[i - 1], acts[i - 1]);
    }
  }

  // ----------------------------------------------------------------- main results

  function Attempts(acts: seq<Action>, n: nat, id: nat): nat
    requires n <= |acts|
  {
    if n == 0 then 0 else Attempts(acts, n - 1, id) + (if acts[n - 1] == Take(id) then 1 else 0)
  }

  function Added(acts: seq<Action>, n: nat): set<nat>
    requires n <= |acts|
  {
    if n == 0 then {} else Added(acts, n - 1) + (if acts[n - 1].Add? then {acts[n - 1].id} else {})
  }

  /** The job table and its attempt counters are what the run did: the jobs are the ids
      ever added, each with as many attempts as a worker started on it. */
  lemma {:induction false} CountersTrue(tr: seq<State>, acts: seq<Action>, n: nat, id: nat)
    requires Run(tr, acts) && n <= |acts|
    ensures tr[n].jobs.Keys == Added(acts, n)
    ensures Attempts(acts, n, id) == if id in tr[n].jobs then tr[n].jobs[id].started else 0
  {
    if n > 0 {
      CountersTrue(tr, acts, n - 1, id);
      CountersStep(tr[n - 1], acts[n - 1], id);
    }
  }

  lemma CountersStep(s: State, a: Action, id: nat)
    requires Enabled(s, a)
    ensures var t := Next(s, a);
            && t.jobs.Keys == s.jobs.Keys + (if a.Add? then {a.id} else {})
            && (id in s.jobs ==>
                  id in t.jobs && t.jobs[id].started == s.jobs[id].started + (if a == Take(id) then 1 else 0))
            && (id !in s.jobs ==> a != Take(id) && (id in t.jobs ==> t.jobs[id].started == 0))
  {
    hide Backoff;
  }

  /** After the m-th failure of a job, with m = 1 or 2, its next attempt starts no sooner
      than 1 s or 2 s later; after the third, there is no other attempt. */
  lemma RetryWaits(tr: seq<State>, acts: seq<Action>, i: nat, k: nat, id: nat)
    requires Run(tr, acts) && i < k < |acts| && acts[i] == Throw(id) && acts[k] == Take(id)
    ensures 1 <= tr[i].jobs[id].made + 1 <= 2
    ensures tr[k].now >= tr[i].now + (if tr[i].jobs[id].made == 0 then 1000 else 2000)
  {
    RunInv(tr, acts, i);
    JobOfInv(tr[i], id);
    RunInv(tr, acts, i + 1);
    RetryHeld(tr, acts, i, k, id);
    assert Pow2(0) == 1 && Pow2(1) == 2;
  }

  /** From a failure on, the job is over, or waits for its backoff, or the backoff has
      passed. */
  lemma {:induction false} RetryHeld(tr: seq<State>, acts: seq<Action>, i: nat, k: nat, id: nat)
    requires Run(tr, acts) && i < k < |tr| && acts[i] == Throw(id)
    requires id in tr[i].jobs
    ensures id in tr[k].jobs
    ensures var j, m := tr[k].jobs[id].stage, tr[i].jobs[id].made + 1;
            if m >= ATTEMPTS then j.Failed?
            else j == Delayed(tr[i].now + Backoff(m)) || tr[k].now >= tr[i].now + Backoff(m)
  {
    hide Backoff;
    assert Enabled(tr[k - 1], acts[k - 1]) && tr[k] == Next(tr[k - 1], acts[k - 1]);
    if k > i + 1 { RetryHeld(tr, acts, i, k - 1, id); }
  }

  /** How often the processor of job id threw. */
  function Throws(acts: seq<Action>, n: nat, id: nat): nat
    requires n <= |acts|
  {
    if n == 0 then 0 else Throws(acts, n - 1, id) + (if acts[n - 1] == Throw(id) then 1 else 0)
  }

  lemma ThrowsStep(s: State, a: Action, id: nat)
    requires Enabled(s, a)
    ensures var t := Next(s, a);
            && (id in s.jobs ==> id in t.jobs && t.jobs[id].made == s.jobs[id].made + (if a == Throw(id) then 1 else 0))
            && (id !in s.jobs ==> a != Throw(id) && (id in t.jobs ==> t.jobs[id].made == 0))
  {
    hide Backoff;
  }

  lemma {:induction false} ThrowsCounted(tr: seq<State>, acts: seq<Action>, n: nat, id: nat)
    requires Run(tr, acts) && n <= |acts|
    ensures Throws(acts, n, id) == if id in tr[n].jobs then tr[n].jobs[id].made else 0
  {
    hide Next, Enabled;
    if n > 0 {
      ThrowsCounted(tr, acts, n - 1, id);
      ThrowsStep(tr[n - 1], acts[n - 1], id);
    }
  }

  /** A job fails for good exactly when its processor has thrown three times. */
  lemma FailedIff(tr: seq<State>, acts: seq<Action>, n: nat, id: nat)
    requires Run(tr, acts) && n <= |acts|
    ensures id in tr[n].jobs && tr[n].jobs[id].stage.Failed? <==> Throws(acts, n, id) == 3
    ensures Throws(acts, n, id) <= 3
  {
    hide Next, Enabled, FailedJobs, DeadLetters;
    ThrowsCounted(tr, acts, n, id);
    RunInv(tr, acts, n);
    if id in tr[n].jobs { JobOfInv(tr[n], id); }
  }

  lemma CompletedStep(s: State, a: Action, id: nat)
    requires Enabled(s, a)
    ensures var t := Next(s, a);
            id in t.jobs && t.jobs[id].stage.Completed? <==>
              (id in s.jobs && s.jobs[id].stage.Completed?) || a == Succeed(id)
  {
    hide Backoff;
  }

  /** A job is completed exactly when an attempt at it has succeeded, and stays so. */
  lemma {:induction false} CompletedIff(tr: seq<State>, acts: seq<Action>, n: nat, id: nat)
    requires Run(tr, acts) && n <= |acts|
    ensures id in tr[n].jobs && tr[n].jobs[id].stage.Completed? <==> exists i :: 0 <= i < n && acts[i] == Succeed(id)
  {
    hide Next, Enabled;
    if n > 0 {
      CompletedIff(tr, acts, n - 1, id);
      CompletedStep(tr[n - 1], acts[n - 1], id);
    }
  }

  /** A successful attempt raises no event, and its job never gets a dead letter. */
  lemma SuccessIsFinal(tr: seq<State>, acts: seq<Action>, i: nat, n: nat, id: nat)
    requires Run(tr, acts) && i < n <= |acts| && acts[i] == Succeed(id)
    ensures tr[i + 1].events == tr[i].events
    ensures id in tr[n].jobs && tr[n].jobs[id].stage.Completed?
    ensures id !in tr[n].events && id !in tr[n].dead && id !in tr[n].lost
  {
    hide FailedJobs, DeadLetters;
    SuccessQuiet(tr[i], acts[i], id);
    CompletedIff(tr, acts, n, id);
    RunInv(tr, acts, n);
    NotLettered(tr[n], id);
  }

  lemma SuccessQuiet(s: State, a: Action, id: nat)
    requires Enabled(s, a) && a == Succeed(id)
    ensures Next(s, a).events == s.events
  {}

  lemma NotLettered(s: State, id: nat)
    requires Inv(s) && id in s.jobs && !s.jobs[id].stage.Failed?
    ensures id !in s.events && id !in s.dead && id !in s.lost
  {
    assert id !in FailedJobs(s) && (id in s.dead ==> id in DeadLetters(s));
  }

  /** At most three attempts; a job that fails for good has slept 1 s and 2 s, and a
      third, longer wait never happens. */
  lemma AtMostThreeAttempts(tr: seq<State>, acts: seq<Action>, i: nat, id: nat)
    requires Run(tr, acts) && i < |tr| && id in tr[i].jobs
    ensures var j := tr[i].jobs[id];
            && j.started <= 3
            && (j.stage.Failed? ==> j.started == 3 && j.waits == [1000, 2000])
            && j.waits <= [1000, 2000]
  {
    RunInv(tr, acts, i);
    hide Inv, FailedJobs, DeadLetters;
    assert JobOk(tr[i].jobs[id]) by { JobOfInv(tr[i], id); }
    SleptValues();
  }

  lemma JobOfInv(s: State, id: nat)
    requires Inv(s) && id in s.jobs
    ensures JobOk(s.jobs[id])
  {}

  lemma SleptValues()
    ensures Slept(0) == [] && Slept(1) == [1000] && Slept(2) == [1000, 2000]
  {
    assert Pow2(0) == 1 && Pow2(1) == 2;
    assert Backoff(1) == 1000 && Backoff(2) == 2000;
  }

  /** Dead letters, events on their way and lost events are together exactly the failed
      jobs, each in one place and one time. */
  lemma DeadLettersMatchFailures(tr: seq<State>, acts: seq<Action>, i: nat)
    requires Run(tr, acts) && i < |tr|
    ensures var s := tr[i];
            && (forall x, y :: 0 <= x < y < |s.dead| ==> s.dead[x] != s.dead[y])
            && (forall id :: id in s.dead ==> id in FailedJobs(s))
            && |FailedJobs(s)| == |s.dead| + |s.events| + |s.lost|
            && (s.events == {} && s.lost == {} ==> forall id :: id in FailedJobs(s) <==> id in s.dead)
  {
    var s := tr[i];
    RunInv(tr, acts, i);
    DistinctCount(s.dead);
    assert |FailedJobs(s)| == |s.events + DeadLetters(s)| + |s.lost|;
    assert |s.events + DeadLetters(s)| == |s.events| + |DeadLetters(s)|;
  }

  lemma {:induction false} DistinctCount(ids: seq<nat>)
    requires forall x, y :: 0 <= x < y < |ids| ==> ids[x] != ids[y]
    ensures |Elems(ids)| == |ids|
  {
    if ids != [] {
      var last, rest := ids[|ids| - 1], ids[..|ids| - 1];
      DistinctCount(rest);
      ElemsSplit(rest, last);
      assert ids == rest + [last];
      assert last !in Elems(rest);
    }
  }

  lemma ElemsSplit(rest: seq<nat>, last: nat)
    ensures Elems(rest + [last]) == Elems(rest) + {last}
  {}

  function InStage(s: State, n: nat): set<nat> {
    set id | id in s.jobs && (match s.jobs[id].stage
                              case Waiting => n == 0
                              case Active => n == 1
                              case Delayed(_) => n == 2
                              case Completed => n == 3
                              case Failed => n == 4)
  }

  /** Conservation over a run: the ids ever added are as many as there are jobs waiting,
      active, delayed, completed and failed. */
  lemma JobsConserved(tr: seq<State>, acts: seq<Action>, n: nat)
    requires Run(tr, acts) && n <= |acts|
    ensures var s := tr[n];
            |Added(acts, n)| == |InStage(s, 0)| + |InStage(s, 1)| + |InStage(s, 2)| + |InStage(s, 3)| + |InStage(s, 4)|
  {
    CountersTrue(tr, acts, n, 0);
    StagesPartition(tr[n]);
  }

  lemma StagesPartition(s: State)
    ensures |s.jobs.Keys| == |InStage(s, 0)| + |InStage(s, 1)| + |InStage(s, 2)| + |InStage(s, 3)| + |InStage(s, 4)|
  {
    var a, b := InStage(s, 0) + InStage(s, 1), InStage(s, 2) + InStage(s, 3);
    assert s.jobs.Keys == a + b + InStage(s, 4);
    assert |a| == |InStage(s, 0)| + |InStage(s, 1)|;
    assert |b| == |InStage(s, 2)| + |InStage(s, 3)|;
    assert |a + b| == |a| + |b|;
  }

  predicate Over(j: Job) { j.stage.Completed? || j.stage.Failed? }

  /** How many more steps a job can take. */
  function Remaining(j: Job): nat
    requires JobOk(j)
  {
    match j.stage
    case Waiting => 2 + 3 * (ATTEMPTS - 1 - j.made)
    case Active => 1 + 3 * (ATTEMPTS - 1 - j.made)
    case Delayed(_) => 3 + 3 * (ATTEMPTS - 1 - j.made)
    case Completed => 0
    case Failed => 0
  }

  predicate StepOf(a: Action, id: nat) {
    (a.Take? || a.Succeed? || a.Throw? || a.Promote?) && a.id == id
  }

  /** Each step of a job leaves it fewer steps; nothing else touches it; and a job that is
      over takes no step. */
  lemma RemainingStep(s: State, a: Action, id: nat)
    requires Inv(s) && Enabled(s, a) && id in s.jobs && Inv(Next(s, a))
    ensures id in Next(s, a).jobs
    ensures StepOf(a, id) ==> Remaining(Next(s, a).jobs[id]) < Remaining(s.jobs[id])
    ensures !StepOf(a, id) ==> Next(s, a).jobs[id] == s.jobs[id]
    ensures Over(s.jobs[id]) ==> !StepOf(a, id)
  {
    hide Slept, Backoff, FailedJobs, DeadLetters;
  }

  function StepsOf(acts: seq<Action>, n: nat, id: nat): nat
    requires n <= |acts|
  {
    if n == 0 then 0 else StepsOf(acts, n - 1, id) + (if StepOf(acts[n - 1], id) then 1 else 0)
  }

  /** No job takes more than eight steps in any run, and how far it is from its end is
      bounded by what is left of them. */
  lemma {:induction false} JobsTerminate(tr: seq<State>, acts: seq<Action>, n: nat, id: nat)
    requires Run(tr, acts) && n <= |acts|
    ensures id in tr[n].jobs ==>
              JobOk(tr[n].jobs[id]) && StepsOf(acts, n, id) + Remaining(tr[n].jobs[id]) <= 8
    ensures id !in tr[n].jobs ==> StepsOf(acts, n, id) == 0
  {
    RunInv(tr, acts, n);
    if id in tr[n].jobs { JobOfInv(tr[n], id); }
    if n > 0 {
      JobsTerminate(tr, acts, n - 1, id);
      RunInv(tr, acts, n - 1);
      hide Inv, FailedJobs, DeadLetters, JobOk, Slept, Backoff;
      if id in tr[n - 1].jobs { RemainingStep(tr[n - 1], acts[n - 1], id); }
    }
  }

  /** A way on for a job that is not over. */
  function Onward(stage: Stage, id: nat): Action {
    match stage
    case Waiting => Take(id)
    case Active => Succeed(id)
    case Delayed(_) => Promote(id)
    case _ => Add(id)
  }

  /** A job that is not over can always take a step, if it is delayed at the latest when
      its backoff has passed; one that is over never can. */
  lemma JobsProgress(s: State, id: nat, a: Action)
    requires id in s.jobs
    ensures var j := s.jobs[id];
            && (!Over(j) ==> StepOf(Onward(j.stage, id), id))
            && (!Over(j) && (j.stage.Delayed? ==> j.stage.until <= s.now) ==> Enabled(s, Onward(j.stage, id)))
            && (Over(j) && StepOf(a, id) ==> !Enabled(s, a))
  {
    match s.jobs[id].stage {
      case Waiting =>
      case Active =>
      case Delayed(_) =>
      case _ =>
    }
  }

  // ------------------------------------------------------------------ the queue code

  /** A queue updated in place by enqueuers, the worker and the dead-letter handler. */
  class Queue {
    var now: nat
    var jobs: map<nat, Job>
    var events: set<nat>
    var dead: seq<nat>
    var lost: set<nat>

    ghost function View(): State
      reads this
    {
      State(now, jobs, events, dead, lost)
    }

    constructor ()
      ensures View() == EMPTY
    {
      now, jobs, events, dead, lost := 0, map[], {}, [], {};
    }

    /** Queue.add: a known job id is a no-op. */
    method AddJob(id: nat)
      modifies this`jobs
      ensures View() == Next(old(View()), Add(id))
      ensures id in old(jobs) ==> jobs == old(jobs)
      ensures id !in old(jobs) ==> jobs == old(jobs)[id := Job(Waiting, 0, 0, [])]
    {
      if id !in jobs { jobs := jobs[id := Job(Waiting, 0, 0, [])]; }
    }

    method TakeJob(id: nat)
      requires Enabled(View(), Take(id))
      modifies this`jobs
      ensures View() == Next(old(View()), Take(id))
      ensures id in jobs && jobs[id].stage == Active && jobs[id].made == old(jobs[id]).made
    {
      var j := jobs[id];
      jobs := jobs[id := j.(stage := Active, started := j.started + 1)];
    }

    /** The end of an attempt: done, retry after a backoff, or give up and tell the
        listeners. */
    method EndAttempt(id: nat, ok: bool)
      requires Enabled(View(), Succeed(id))
      modifies this`jobs, this`events
      ensures View() == Next(old(View()), if ok then Succeed(id) else Throw(id))
      ensures jobs.Keys == old(jobs).Keys && id in jobs
      ensures forall q :: q in jobs && q != id ==> jobs[q] == old(jobs)[q]
      ensures ok ==> jobs[id].stage == Completed && jobs[id].made == old(jobs[id]).made && events == old(events)
      ensures !ok ==> jobs[id].made == old(jobs[id]).made + 1
      ensures !ok && old(jobs[id]).made == 0 ==> jobs[id].stage == Delayed(now + 1000) && events == old(events)
      ensures !ok && old(jobs[id]).made == 1 ==> jobs[id].stage == Delayed(now + 2000) && events == old(events)
      ensures !ok && old(jobs[id]).made >= 2 ==> jobs[id].stage == Failed && events == old(events) + {id}
    {
      assert Pow2(0) == 1 && Pow2(1) == 2;
      var j := jobs[id];
      if ok {
        jobs := jobs[id := j.(stage := Completed)];
      } else {
        var made := j.made + 1;
        if made >= ATTEMPTS {
          jobs := jobs[id := j.(stage := Failed, made := made)];
          events := events + {id};
        } else {
          var delay := Backoff(made);
          jobs := jobs[id := j.(stage := Delayed(now + delay), made := made, waits := j.waits + [delay])];
        }
      }
    }

    /** attachDeadLetterHandler on one failed event. */
    method SendToDeadLetter(id: nat)
      requires Enabled(View(), HandOff(id))
      modifies this`events, this`dead
      ensures View() == Next(old(View()), HandOff(id))
      ensures dead == old(dead) + [id] && events == old(events) - {id}
    {
      events := events - {id};
      dead := dead + [id];
    }
  }
}
