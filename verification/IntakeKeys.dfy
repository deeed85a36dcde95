/** What the idempotency key of a request depends on: its path and its Idempotency-Key
    header, both of them whole, and nothing else. */
module IntakeKeys {
  import opened Wrappers
  import opened Hash
  import opened Intake
  import opened IntakeSafety

  /** A request has no key exactly when its header is absent or empty. */
  lemma KeyPresence(path: string, header: Option<string>)
    ensures RedisKey(path, header).None? <==> header.None? || header.value == ""
  {}

  /** For paths without a colon, keys are the same exactly when path and header are. */
  lemma KeyDetermines(path: string, header: Option<string>, path': string, header': Option<string>)
    requires ':' !in path && ':' !in path'
    requires RedisKey(path, header).Some? && RedisKey(path', header').Some?
    ensures RedisKey(path, header) == RedisKey(path', header') <==> path == path' && header == header'
  {
    if RedisKey(path, header) == RedisKey(path', header') {
      var u, v := path + [':'] + header.value, path' + [':'] + header'.value;
      assert RedisKey(path, header).value == "idempotency:" + u;
      assert RedisKey(path', header').value == "idempotency:" + v;
      assert ("idempotency:" + u)[12..] == u && ("idempotency:" + v)[12..] == v;
      CutAt(path, ':', header.value);
      CutAt(path', ':', header'.value);
    }
  }

  /** The key as Redis sees it; and two requests that a colon in a path would confuse. */
  lemma KeyExamples()
    ensures RedisKey("/enquiry", Some("k")) == Some("idempotency:/enquiry:k")
    ensures RedisKey("/a", Some("b:c")) == RedisKey("/a:b", Some("c"))
  {
    assert "idempotency:" + "/enquiry" + ":" + "k" == "idempotency:/enquiry:k";
    assert "idempotency:" + "/a" + ":" + "b:c" == "idempotency:" + "/a:b" + ":" + "c";
  }

  lemma NewCallArrives(s: State, a: Action, r: nat)
    requires Inv(s) && Enabled(s, a) && r !in s.calls && r in Next(s, a).calls
    ensures a.Arrive? && a.r == r
  {
    hide RedisKey, Perform, OpEnabled, Inv;
    if a.Do? {
      CallOfInv(s, a.call);
      PerformDelta(s, a.call, a.op);
      assert false;
    }
  }

  /** Every call is a request that arrived. */
  lemma {:induction false} ArrivalOf(tr: seq<State>, acts: seq<Action>, n: nat, r: nat) returns (i: nat)
    requires Run(tr, acts) && n < |tr| && r in tr[n].calls
    ensures i < n && acts[i].Arrive? && acts[i].r == r
  {
    hide Next, Enabled, RedisKey, Inv;
    RunInv(tr, acts, n - 1);
    if r in tr[n - 1].calls {
      i := ArrivalOf(tr, acts, n - 1, r);
    } else {
      NewCallArrives(tr[n - 1], acts[n - 1], r);
      i := n - 1;
    }
  }

  lemma ArriveSets(s: State, a: Action)
    requires Enabled(s, a) && a.Arrive?
    ensures a.r in Next(s, a).calls
    ensures var c := Next(s, a).calls[a.r]; c.key == RedisKey(a.path, a.header) && c.body == a.body
  {
    hide RedisKey, Fingerprint;
  }

  /** A call keeps the key and the body of its request for ever. */
  lemma KeyOfArrival(tr: seq<State>, acts: seq<Action>, n: nat, i: nat)
    requires Run(tr, acts) && n < |tr| && i < n && acts[i].Arrive?
    ensures acts[i].r in tr[n].calls
    ensures tr[n].calls[acts[i].r].key == RedisKey(acts[i].path, acts[i].header)
    ensures tr[n].calls[acts[i].r].body == acts[i].body
  {
    hide Next, Enabled, RedisKey;
    ArriveSets(tr[i], acts[i]);
    RunGrows(tr, acts, i + 1, n);
  }

  /** Two calls have the same key exactly when they arrived with the same path and the same
      header, which is neither absent nor empty. */
  lemma SameKeyIff(tr: seq<State>, acts: seq<Action>, n: nat, i: nat, j: nat)
    requires Run(tr, acts) && n < |tr| && i < n && j < n && acts[i].Arrive? && acts[j].Arrive?
    requires ':' !in acts[i].path && ':' !in acts[j].path
    ensures acts[i].r in tr[n].calls && acts[j].r in tr[n].calls
    ensures var k, l := tr[n].calls[acts[i].r].key, tr[n].calls[acts[j].r].key;
            k.Some? && k == l <==>
              && acts[i].header.Some? && acts[i].header.value != ""
              && acts[i].path == acts[j].path && acts[i].header == acts[j].header
  {
    hide RedisKey, Next, Enabled;
    KeyOfArrival(tr, acts, n, i);
    KeyOfArrival(tr, acts, n, j);
    KeyPresence(acts[i].path, acts[i].header);
    KeyPresence(acts[j].path, acts[j].header);
    if RedisKey(acts[i].path, acts[i].header).Some? && RedisKey(acts[j].path, acts[j].header).Some? {
      KeyDetermines(acts[i].path, acts[i].header, acts[j].path, acts[j].header);
    }
  }

  // ------------------------------------------------------------------ how long it lives

  /** After a claim and after a stored answer the key is taken at 86399 s and free at
      86400 s. */
  lemma KeyLivesADay(s: State, r: nat, op: KeyOp, seconds: nat)
    requires r in s.calls && s.calls[r].key.Some? && KeyEnabled(s.calls[r], op)
    requires op == Store || (op == Enter && !Live(s, s.calls[r].key.value))
    ensures var t := PerformKey(s, r, op);
            Live(t.(now := t.now + seconds), s.calls[r].key.value) <==> seconds < 86400
  {}
}
