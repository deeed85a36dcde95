/** The cache code over the Redis it updates in place: the steps of getOrSetWithSWR,
    refreshInBackground and writeCache between awaits, each proved to be one action of the
    protocol, and getOrSetWithSWR and the invalidation functions from end to end. */
module CacheService {
  import opened Wrappers
  import opened CacheKeys
  import opened Cache

  /** All keys of the chunks that SCAN delivers. */
  function KeysIn(chunks: seq<seq<string>>): set<string> {
    if chunks == [] then {} else (set k | k in chunks[0]) + KeysIn(chunks[1..])
  }

  lemma {:induction false} KeysInAppend(chunks: seq<seq<string>>, last: seq<string>)
    ensures KeysIn(chunks + [last]) == KeysIn(chunks) + (set k | k in last)
  {
    if chunks == [] {
      assert (chunks + [last])[1..] == [];
    } else {
      assert (chunks + [last])[1..] == chunks[1..] + [last];
      KeysInAppend(chunks[1..], last);
    }
  }

  class CacheService {
    const p: Params
    var now: nat
    var store: map<string, Stored>
    var tasks: map<nat, Task>
    var sweeps: map<nat, Sweep>
    var launches: map<string, seq<nat>>

    ghost function View(): State
      reads this
    {
      State(now, store, tasks, sweeps, launches)
    }

    constructor (p: Params)
      ensures this.p == p && View() == Init()
    {
      this.p := p;
      now, store, tasks, sweeps, launches := 0, map[], map[], map[], map[];
    }

    // ------------------------------------------------------------- steps of a task

    /** redisClient.get. */
    method Lookup(t: nat, args: Args, up: Upstream) returns (raw: Option<Envelope>)
      requires Enabled(View(), Read(t, args))
      modifies this`tasks
      ensures View() == Next(p, up, old(View()), Read(t, args))
      ensures t in tasks && tasks[t] == Task(args, false, now, Got(raw))
    {
      var k := KeyOf(args);
      raw := None;
      if k in store && (!p.expiring || now < store[k].setAt + EXPIRY) { raw := Some(store[k].env); }
      tasks := tasks[t := Task(args, false, now, Got(raw))];
    }

    /** Fresh: serve. Stale: serve and start task b. Older or missing: fetch. */
    method Choose(t: nat, b: nat, up: Upstream)
      requires Enabled(View(), Decide(t, b)) && t != b
      modifies this`tasks, this`launches
      ensures View() == Next(p, up, old(View()), Decide(t, b))
    {
      var task := tasks[t];
      var k := KeyOf(task.args);
      var raw := task.phase.raw;
      if raw.Some? {
        var e := raw.value;
        var age: int := now - e.cachedAt;
        if age < p.ttl {
          tasks := tasks[t := task.(phase := Served(e.data, e.readAt, e.args, now))];
          return;
        }
        if age < p.ttl + p.stale {
          tasks := tasks[t := task.(phase := Served(e.data, e.readAt, e.args, now))];
          tasks := tasks[b := Task(task.args, true, now, Fetching)];
          launches := launches[k := (if k in launches then launches[k] else []) + [now]];
          return;
        }
      }
      tasks := tasks[t := task.(phase := Fetching)];
      launches := launches[k := (if k in launches then launches[k] else []) + [now]];
    }

    method Fetch(t: nat, up: Upstream, ok: bool)
      requires Enabled(View(), Ask(t))
      modifies this`tasks
      ensures View() == Next(p, up, old(View()), if ok then Ask(t) else FetchError(t))
    {
      var task := tasks[t];
      tasks := tasks[t := task.(phase := if ok then Fetched(up(task.args, now), now) else Failed)];
    }

    /** writeCache up to its await: the envelope gets the current time. */
    method MakeEnvelope(t: nat, up: Upstream)
      requires Enabled(View(), Stamp(t))
      modifies this`tasks
      ensures View() == Next(p, up, old(View()), Stamp(t))
    {
      var task := tasks[t];
      tasks := tasks[t := task.(phase := Stamped(Envelope(task.phase.data, now, task.phase.readAt, task.args)))];
    }

    /** The SET of writeCache lands. */
    method SetEntry(t: nat, up: Upstream, acked: bool)
      requires Enabled(View(), Write(t, acked))
      modifies this`tasks, this`store
      ensures View() == Next(p, up, old(View()), Write(t, acked))
    {
      var task := tasks[t];
      var e := task.phase.env;
      store := store[KeyOf(task.args) := Stored(e, now)];
      if !acked {
        tasks := tasks[t := task.(phase := Failed)];
      } else if task.background {
        tasks := tasks[t := task.(phase := Refreshed)];
      } else {
        tasks := tasks[t := task.(phase := Served(e.data, e.readAt, e.args, now))];
      }
    }

    // ----------------------------------------------------------- from end to end

    /** getOrSetWithSWR when nothing interleaves; the background refresh, if one starts,
        stays pending as task b. A usable entry is served without asking the upstream,
        even when the upstream is down; otherwise the answer is the upstream's of now,
        and it is stored. */
    method GetOrSetWithSWR(t: nat, b: nat, args: Args, up: Upstream, fetchOk: bool)
      returns (r: Option<Value>)
      requires t !in tasks && b !in tasks && t != b
      modifies this`tasks, this`store, this`launches
      ensures var k := KeyOf(args);
              var usable := old(Live(p, View(), k)) && now < old(store)[k].env.cachedAt + p.ttl + p.stale;
              var young := usable && now < old(store)[k].env.cachedAt + p.ttl;
              && (usable ==> r == Some(old(store)[k].env.data) && store == old(store))
              && (!usable && fetchOk ==>
                    r == Some(up(args, now))
                    && store == old(store)[k := Stored(Envelope(up(args, now), now, now, args), now)])
              && (!usable && !fetchOk ==> r == None && store == old(store))
              && (b in tasks <==> usable && !young)
              && (b in tasks ==> tasks[b] == Task(args, true, now, Fetching))
              && (young ==> launches == old(launches))
              && (!young ==> launches == old(Launched(View(), k)))
    {
      var raw := Lookup(t, args, up);
      Choose(t, b, up);
      if tasks[t].phase.Fetching? {
        Fetch(t, up, fetchOk);
        if fetchOk {
          MakeEnvelope(t, up);
          SetEntry(t, up, true);
        }
      }
      r := if tasks[t].phase.Served? then Some(tasks[t].phase.data) else None;
    }

    /** Accumulates the chunks of the scan, then deletes what it found. The keys that are
        stored and match are deleted and no others. */
    method InvalidateCacheByPrefix(prefix: string, chunks: seq<seq<string>>)
      requires KeysIn(chunks) == MatchingKeys(View(), prefix)
      modifies this`store
      ensures store == old(store) - old(MatchingKeys(View(), prefix))
    {
      var keys: seq<string> := [];
      for n := 0 to |chunks|
        invariant store == old(store)
        invariant (set k | k in keys) == KeysIn(chunks[..n])
      {
        keys := keys + chunks[n];
        assert chunks[..n + 1] == chunks[..n] + [chunks[n]];
        KeysInAppend(chunks[..n], chunks[n]);
      }
      assert chunks[..|chunks|] == chunks;
      var found := set k | k in keys;
      if |keys| > 0 {
        store := store - found;
      } else {
        assert found == {} && store == store - found;
      }
    }

    /** invalidatePropertyCache: an absent or empty slug skips the first sweep. Afterwards
        no listing is cached, the slug's page is cached only if it was and its pattern does
        not find it, and of the other keys only slug keys that the pattern finds are gone. */
    method InvalidatePropertyCache(slug: Option<string>, slugChunks: seq<seq<string>>,
                                   listingChunks: seq<seq<string>>)
      requires slug.Some? && slug.value != "" ==>
                 KeysIn(slugChunks) == MatchingKeys(View(), SINGLE_PREFIX + slug.value)
      requires KeysIn(listingChunks) == MatchingKeys(View(), LISTING_PREFIX)
      modifies this`store
      ensures forall k :: k in store ==> k in old(store) && store[k] == old(store)[k]
      ensures forall first, after :: KeyOf(Listing(first, after)) !in store
      ensures slug.Some? && slug.value != "" ==>
                var k := KeyOf(Single(slug.value));
                (k in store <==> k in old(store) && !FindsItself(slug.value))
      ensures forall k :: k in old(store) && k !in store ==>
                || LISTING_PREFIX <= k
                || (slug.Some? && slug.value != "" && SINGLE_PREFIX <= k && Matching(SINGLE_PREFIX + slug.value, k))
      ensures slug.Some? && Literal(slug.value) ==>
                forall k :: k in old(store) && k !in store ==> LISTING_PREFIX <= k || SINGLE_PREFIX + slug.value <= k
    {
      hide Literal, Matching, FindsItself, KeyOf;
      ListingScan();
      if slug.Some? && slug.value != "" {
        SlugScan(slug.value);
        InvalidateCacheByPrefix(SINGLE_PREFIX + slug.value, slugChunks);
        Leftover(old(View()), View(), SINGLE_PREFIX + slug.value);
      }
      InvalidateCacheByPrefix(LISTING_PREFIX, listingChunks);
      forall first, after ensures KeyOf(Listing(first, after)) !in store {
        ListingKeysHavePrefix(first, after);
      }
    }
  }

  /** The times in force: 5 min fresh, 10 min more with a refresh behind it, 6 h in Redis. */
  const LIVE_TIMES := Params(300000, 600000, true)

  /** A read is served without a fetch until 299999 ms, with one behind it until 899999 ms,
      and waits for one from 900000 ms on; the entry is there until 21599999 ms. */
  lemma RealTimes(up: Upstream, s: State, t: nat, b: nat, e: Envelope, age: nat)
    requires Enabled(s, Decide(t, b)) && t != b && s.tasks[t].phase == Got(Some(e)) && s.now == e.cachedAt + age
    ensures var n := Next(LIVE_TIMES, up, s, Decide(t, b));
            && t in n.tasks
            && (n.tasks[t].phase.Served? <==> age < 900000) && (n.tasks[t].phase.Fetching? <==> age >= 900000)
            && (b in n.tasks <==> 300000 <= age < 900000)
  {
    hide KeyOf, Launched;
  }

  lemma RealExpiry(s: State, k: string)
    requires k in s.store
    ensures Live(LIVE_TIMES, s, k) <==> s.now < s.store[k].setAt + 21600000
  {}

  /** What the two scan patterns match. */
  lemma ListingScan()
    ensures forall k :: Matching(LISTING_PREFIX, k) <==> LISTING_PREFIX <= k
  {
    forall k ensures Matching(LISTING_PREFIX, k) <==> LISTING_PREFIX <= k {
      LiteralPrefixGlob(LISTING_PREFIX, k);
    }
  }

  lemma SlugScan(slug: string)
    ensures forall k :: Matching(SINGLE_PREFIX + slug, k) ==> SINGLE_PREFIX <= k && !(LISTING_PREFIX <= k)
    ensures Matching(SINGLE_PREFIX + slug, KeyOf(Single(slug))) <==> FindsItself(slug)
    ensures !(LISTING_PREFIX <= KeyOf(Single(slug)))
    ensures Literal(slug) ==> forall k :: Matching(SINGLE_PREFIX + slug, k) <==> SINGLE_PREFIX + slug <= k
  {
    hide Glob, FindsItself;
    SlugPattern(slug);
    SlugKeyIsNoListing(KeyOf(Single(slug)));
    forall k | Matching(SINGLE_PREFIX + slug, k) ensures SINGLE_PREFIX <= k && !(LISTING_PREFIX <= k) {
      assert SINGLE_PREFIX + slug + "*" == SINGLE_PREFIX + (slug + "*");
      LiteralHeadOnly(SINGLE_PREFIX, slug + "*", k);
      SlugKeyIsNoListing(k);
    }
    if Literal(slug) {
      forall k ensures Matching(SINGLE_PREFIX + slug, k) <==> SINGLE_PREFIX + slug <= k {
        LiteralPrefixGlob(SINGLE_PREFIX + slug, k);
      }
    }
  }

  lemma SlugKeyIsNoListing(k: string)
    requires SINGLE_PREFIX <= k
    ensures !(LISTING_PREFIX <= k)
  {
    assert k[13] == SINGLE_PREFIX[13] == 'y';
    assert LISTING_PREFIX[13] == 'i';
  }

  /** Deleting slug keys leaves the listing keys to the second scan. */
  lemma Leftover(s: State, t: State, prefix: string)
    requires t.store == s.store - MatchingKeys(s, prefix)
    requires forall k :: Matching(LISTING_PREFIX, k) <==> LISTING_PREFIX <= k
    requires forall k :: Matching(prefix, k) ==> !(LISTING_PREFIX <= k)
    ensures MatchingKeys(t, LISTING_PREFIX) == MatchingKeys(s, LISTING_PREFIX)
  {}
}
