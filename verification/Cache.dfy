/** The stale-while-revalidate cache (src/services/cache.service.ts) as timed concurrent
    tasks over one Redis: any number of reads, background refreshes and invalidations,
    each cut at its awaits. Times are milliseconds on one shared clock. */
module Cache {
  import opened Wrappers
  import opened CacheKeys

  /** The Redis EX of writeCache: six hours. */
  const EXPIRY: nat := 6 * 60 * 60 * 1000

  /** ttlSeconds and staleSeconds of getOrSetWithSWR, in milliseconds. `expiring` false
      stands for a store that keeps every key for ever. */
  datatype Params = Params(ttl: nat, stale: nat, expiring: bool)

  /** The JSON text of what a fetcher returned. */
  type Value = string

  /** CacheEnvelope; `readAt` and `args` are history variables: when, and for which
      arguments, the upstream was read. */
  datatype Envelope = Envelope(data: Value, cachedAt: nat, readAt: nat, args: Args)

  datatype Stored = Stored(env: Envelope, setAt: nat)

  datatype Phase =
    | Got(raw: Option<Envelope>)        // GET answered, age not computed yet
    | Fetching                             // fetcher() called
    | Fetched(data: Value, readAt: nat)        // fetcher() returned
    | Stamped(env: Envelope)            // writeCache made the envelope; SET under way
    | Served(data: Value, readAt: nat, source: Args, at: nat)
    | Refreshed                            // background refresh done
    | Failed
    | Unread                               // GET itself failed

  /** A read, or a background refresh started by one. */
  datatype Task = Task(args: Args, background: bool, began: nat, phase: Phase)

  /** invalidateCacheByPrefix at work: `owed` holds the matching keys present since the
      scan began, all of which SCAN returns; `found` is the accumulated key list. */
  datatype Sweep = Sweep(prefix: string, owed: set<string>, found: set<string>, done: bool)

  datatype State = State(now: nat, store: map<string, Stored>, tasks: map<nat, Task>,
                            sweeps: map<nat, Sweep>, launches: map<string, seq<nat>>)

  /** The upstream: what the CMS would answer for given arguments at each moment. */
  type Upstream = (Args, nat) -> Value

  datatype Action =
    | Read(t: nat, args: Args)             // a call sends GET
    | ReadError(t: nat, args: Args)
    | Decide(t: nat, b: nat)               // age computed; a refresh would be task b
    | Ask(t: nat)                          // the upstream is read
    | FetchError(t: nat)
    | Stamp(t: nat)
    | Write(t: nat, acked: bool)           // SET lands, its reply arrives or not
    | WriteError(t: nat)
    | Tick(d: nat)
    | SweepStart(i: nat, prefix: string)
    | SweepScan(i: nat, chunk: set<string>)
    | SweepDelete(i: nat)
    | SweepError(i: nat)                   // SCAN or DEL fails

  function Init(): State { State(0, map[], map[], map[], map[]) }

  predicate Live(p: Params, s: State, k: string) {
    k in s.store && (p.expiring ==> s.now < s.store[k].setAt + EXPIRY)
  }

  /** How old an envelope is when it is looked at. */
  function Age(s: State, e: Envelope): int { s.now - e.cachedAt }

  predicate Matching(prefix: string, k: string) { Glob(prefix + "*", k) }

  function MatchingKeys(s: State, prefix: string): set<string> {
    set k | k in s.store && Matching(prefix, k)
  }

  predicate Enabled(s: State, a: Action) {
    match a
    case Read(t, _) => t !in s.tasks
    case ReadError(t, _) => t !in s.tasks
    case Decide(t, b) => t in s.tasks && s.tasks[t].phase.Got? && b !in s.tasks
    case Ask(t) => t in s.tasks && s.tasks[t].phase.Fetching?
    case FetchError(t) => t in s.tasks && (s.tasks[t].phase.Fetching? || s.tasks[t].phase.Fetched?)
    case Stamp(t) => t in s.tasks && s.tasks[t].phase.Fetched?
    case Write(t, _) => t in s.tasks && s.tasks[t].phase.Stamped?
    case WriteError(t) => t in s.tasks && s.tasks[t].phase.Stamped?
    case Tick(_) => true
    case SweepStart(i, _) => i !in s.sweeps
    case SweepScan(i, chunk) => i in s.sweeps && !s.sweeps[i].done && chunk <= MatchingKeys(s, s.sweeps[i].prefix)
    case SweepDelete(i) => i in s.sweeps && !s.sweeps[i].done && s.sweeps[i].owed <= s.sweeps[i].found
    case SweepError(i) => i in s.sweeps && !s.sweeps[i].done
  }

  function SetPhase(s: State, t: nat, ph: Phase): State
    requires t in s.tasks
  {
    s.(tasks := s.tasks[t := s.tasks[t].(phase := ph)])
  }

  function Launches(s: State, k: string): seq<nat> {
    if k in s.launches then s.launches[k] else []
  }

  function Launched(s: State, k: string): map<string, seq<nat>> {
    s.launches[k := Launches(s, k) + [s.now]]
  }

  /** A fresh hit is served; a stale one is served and refreshed in the background; a miss
      or an older one waits for the fetch. */
  function Decided(p: Params, s: State, t: nat, b: nat): State
    requires t in s.tasks && s.tasks[t].phase.Got? && b !in s.tasks
  {
    var task := s.tasks[t];
    var raw := task.phase.raw;
    if raw.Some? && Age(s, raw.value) < p.ttl + p.stale then
      var e := raw.value;
      var served := SetPhase(s, t, Served(e.data, e.readAt, e.args, s.now));
      if Age(s, e) < p.ttl then served
      else served.(tasks := served.tasks[b := Task(task.args, true, s.now, Fetching)],
                   launches := Launched(s, KeyOf(task.args)))
    else
      SetPhase(s, t, Fetching).(launches := Launched(s, KeyOf(task.args)))
  }

  function Written(s: State, t: nat, acked: bool): State
    requires t in s.tasks && s.tasks[t].phase.Stamped?
  {
    var task := s.tasks[t];
    var e := task.phase.env;
    var after := if !acked then Failed
                 else if task.background then Refreshed
                 else Served(e.data, e.readAt, e.args, s.now);
    SetPhase(s, t, after).(store := s.store[KeyOf(task.args) := Stored(e, s.now)])
  }

  function Deleted(s: State, i: nat): State
    requires i in s.sweeps
  {
    var gone := s.sweeps[i].found;
    s.(store := s.store - gone,
       sweeps := map j | j in s.sweeps :: s.sweeps[j].(owed := s.sweeps[j].owed - gone,
                                                       done := s.sweeps[j].done || j == i))
  }

  function Next(p: Params, up: Upstream, s: State, a: Action): State
    requires Enabled(s, a)
  {
    match a
    case Read(t, args) =>
      var k := KeyOf(args);
      var raw := if Live(p, s, k) then Some(s.store[k].env) else None;
      s.(tasks := s.tasks[t := Task(args, false, s.now, Got(raw))])
    case ReadError(t, args) => s.(tasks := s.tasks[t := Task(args, false, s.now, Unread)])
    case Decide(t, b) => Decided(p, s, t, b)
    case Ask(t) => SetPhase(s, t, Fetched(up(s.tasks[t].args, s.now), s.now))
    case FetchError(t) => SetPhase(s, t, Failed)
    case Stamp(t) =>
      var task := s.tasks[t];
      SetPhase(s, t, Stamped(Envelope(task.phase.data, s.now, task.phase.readAt, task.args)))
    case Write(t, acked) => Written(s, t, acked)
    case WriteError(t) => SetPhase(s, t, Failed)
    case Tick(d) => s.(now := s.now + d)
    case SweepStart(i, prefix) =>
      s.(sweeps := s.sweeps[i := Sweep(prefix, MatchingKeys(s, prefix), {}, false)])
    case SweepScan(i, chunk) =>
      s.(sweeps := s.sweeps[i := s.sweeps[i].(found := s.sweeps[i].found + chunk)])
    case SweepDelete(i) => Deleted(s, i)
    case SweepError(i) => s.(sweeps := s.sweeps[i := s.sweeps[i].(done := true)])
  }

  /** How one task can come out of an action: as it was, or one phase on. */
  ghost predicate TaskMoves(p: Params, up: Upstream, s: State, a: Action, t: nat, u: Task)
    requires Enabled(s, a)
  {
    if t !in s.tasks then
      match a
      case Read(_, args) =>
        var k := KeyOf(args);
        u == Task(args, false, s.now, Got(if Live(p, s, k) then Some(s.store[k].env) else None))
      case ReadError(_, args) => u == Task(args, false, s.now, Unread)
      case Decide(r, b) => u == Task(s.tasks[r].args, true, s.now, Fetching)
      case _ => false
    else
      || u == s.tasks[t]
      || (u == s.tasks[t].(phase := u.phase) &&
          match s.tasks[t].phase
          case Got(raw) =>
            a.Decide? && a.t == t &&
            if raw.Some? && Age(s, raw.value) < p.ttl + p.stale
            then u.phase == Served(raw.value.data, raw.value.readAt, raw.value.args, s.now)
            else u.phase == Fetching
          case Fetching =>
            (a == FetchError(t) && u.phase == Failed) || (a == Ask(t) && u.phase == Fetched(up(u.args, s.now), s.now))
          case Fetched(data, readAt) =>
            || (a == FetchError(t) && u.phase == Failed)
            || (a == Stamp(t) && u.phase == Stamped(Envelope(data, s.now, readAt, u.args)))
          case Stamped(e) =>
            || ((a == WriteError(t) || a == Write(t, false)) && u.phase == Failed)
            || (a == Write(t, true) && u.phase == (if u.background then Refreshed
                                                   else Served(e.data, e.readAt, e.args, s.now)))
          case _ => false)
  }

  lemma DecideMoves(p: Params, up: Upstream, s: State, r: nat, b: nat, t: nat)
    requires Enabled(s, Decide(r, b)) && t in Decided(p, s, r, b).tasks
    ensures TaskMoves(p, up, s, Decide(r, b), t, Decided(p, s, r, b).tasks[t])
  {
    hide KeyOf, Launched;
  }

  /** What an action can do to one task. */
  lemma TaskStep(p: Params, up: Upstream, s: State, a: Action, t: nat)
    requires Enabled(s, a) && t in Next(p, up, s, a).tasks
    ensures TaskMoves(p, up, s, a, t, Next(p, up, s, a).tasks[t])
  {
    if a.Decide? {
      hide TaskMoves, Decided;
      DecideMoves(p, up, s, a.t, a.b, t);
    } else {
      hide KeyOf, MatchingKeys, Decided;
    }
  }

  /** What an action can do to one entry. */
  lemma EntryStep(p: Params, up: Upstream, s: State, a: Action, k: string)
    requires Enabled(s, a)
    ensures var n := Next(p, up, s, a);
            if a.Write? && KeyOf(s.tasks[a.t].args) == k then
              k in n.store && n.store[k] == Stored(s.tasks[a.t].phase.env, s.now)
            else if a.SweepDelete? && k in s.sweeps[a.i].found then k !in n.store
            else (k in n.store <==> k in s.store) && (k in s.store ==> n.store[k] == s.store[k])
  {
    hide KeyOf, MatchingKeys, Decided;
    if a.Decide? { DecidedStore(p, s, a.t, a.b); }
  }

  lemma DecidedStore(p: Params, s: State, r: nat, b: nat)
    requires Enabled(s, Decide(r, b))
    ensures Decided(p, s, r, b).store == s.store && Decided(p, s, r, b).now == s.now
  {
    hide KeyOf, Launched;
  }

  lemma ClockStep(p: Params, up: Upstream, s: State, a: Action)
    requires Enabled(s, a)
    ensures s.now <= Next(p, up, s, a).now
  {}

  /** Tasks never go away and never change their arguments. */
  lemma TaskStays(p: Params, up: Upstream, s: State, a: Action, t: nat)
    requires Enabled(s, a) && t in s.tasks
    ensures t in Next(p, up, s, a).tasks && Next(p, up, s, a).tasks[t].args == s.tasks[t].args
  {
    hide KeyOf, Next;
    TasksStay(p, up, s, a);
    TaskStep(p, up, s, a, t);
  }

  lemma TasksStay(p: Params, up: Upstream, s: State, a: Action)
    requires Enabled(s, a)
    ensures s.tasks.Keys <= Next(p, up, s, a).tasks.Keys
  {
    hide KeyOf, MatchingKeys, Launched;
  }

  /** A run from state tr[0]. */
  ghost predicate Run(p: Params, up: Upstream, tr: seq<State>, acts: seq<Action>) {
    && |tr| == |acts| + 1
    && forall i :: 0 <= i < |acts| ==>
         Enabled(tr[i], acts[i]) && tr[i + 1] == Next(p, up, tr[i], acts[i])
  }

  lemma ExtendRun(p: Params, up: Upstream, tr: seq<State>, acts: seq<Action>, n: nat)
    requires n < |acts| && Run(p, up, tr, acts[..n]) && Enabled(tr[n], acts[n])
    ensures Run(p, up, tr + [Next(p, up, tr[n], acts[n])], acts[..n + 1])
  {
    hide Next, Enabled;
    assert acts[..n + 1] == acts[..n] + [acts[n]];
  }
}
