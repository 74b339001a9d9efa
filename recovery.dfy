/**
  The load / execute / recover protocol over runs of several executions on the
  script's own server: a script that is loaded answers every call with the script's
  own reply; once the server forgets it, exactly the next call answers null and
  loads it again, and the calls after that are answered normally.
*/
module Recovery {
  import opened Redis
  import opened LuaScripts

  /** The replies and the final snapshot of a run of executions, one after another. */
  function ExecAll(code: string, engine: Engine, s: Snapshot, calls: seq<Call>): (r: (seq<Reply>, Snapshot))
    ensures |r.0| == |calls|
    decreases |calls|
  {
    if calls == [] then ([], s)
    else
      var (v, s1) := Exec(code, engine, s, calls[0]);
      var (vs, s2) := ExecAll(code, engine, s1, calls[1..]);
      ([v] + vs, s2)
  }

  /** A loaded script answers with the script's own reply, and nothing changes, whatever the outcome. */
  lemma ExecReady(code: string, engine: Engine, s: Snapshot, c: Call)
    requires s.sha == engine.digest(code) && Ready(code, s)
    ensures Exec(code, engine, s, c) == (Expected(code, engine, c), s)
  {
    assert Load(s.cache, engine.digest, code) == s.cache;
  }

  /** A call that finds the SHA missing answers null and leaves the script loaded. */
  lemma ExecMissing(code: string, engine: Engine, s: Snapshot, c: Call)
    requires s.sha !in s.cache
    ensures Exec(code, engine, s, c).0 == Nil
    ensures Exec(code, engine, s, c).1 == Snapshot(engine.digest(code), s.cache[engine.digest(code) := code])
    ensures Ready(code, Exec(code, engine, s, c).1)
  {
  }

  /** Any failed call, whatever the error, answers null and leaves the script loaded under its own SHA. */
  lemma FailureLeavesReady(code: string, engine: Engine, s: Snapshot, c: Call)
    requires EvalShaOutcome(s.cache, engine, s.sha, c.numKeys, c.args).DataError?
    ensures Exec(code, engine, s, c).0 == Nil
    ensures var s' := Exec(code, engine, s, c).1;
            s'.sha == engine.digest(code) && Ready(code, s')
  {
  }

  /** A run on a loaded script answers each call with the script's own reply and leaves everything as it was. */
  lemma {:induction false} ExecAllReady(code: string, engine: Engine, s: Snapshot, calls: seq<Call>)
    requires s.sha == engine.digest(code) && Ready(code, s)
    ensures ExecAll(code, engine, s, calls).1 == s
    ensures forall i :: 0 <= i < |calls| ==> ExecAll(code, engine, s, calls).0[i] == Expected(code, engine, calls[i])
    decreases |calls|
  {
    if calls != [] {
      ExecReady(code, engine, s, calls[0]);
      ExecAllReady(code, engine, s, calls[1..]);
      var rest := ExecAll(code, engine, s, calls[1..]).0;
      assert ExecAll(code, engine, s, calls).0 == [Expected(code, engine, calls[0])] + rest;
      forall i | 0 <= i < |calls|
        ensures ExecAll(code, engine, s, calls).0[i] == Expected(code, engine, calls[i])
      {
        if i > 0 {
          assert calls[1..][i - 1] == calls[i];
        }
      }
    }
  }

  /**
    After the server has forgotten the script (a flush, an eviction, a restart), the first
    call of a run answers null, even when the script would have succeeded, and every later
    call answers with the script's own reply; the script ends up loaded again.
  */
  lemma {:induction false} RecoveryAfterEviction(code: string, engine: Engine, s: Snapshot, calls: seq<Call>)
    requires s.sha == engine.digest(code) && s.sha !in s.cache && |calls| > 0
    ensures ExecAll(code, engine, s, calls).0[0] == Nil
    ensures forall i :: 1 <= i < |calls| ==> ExecAll(code, engine, s, calls).0[i] == Expected(code, engine, calls[i])
    ensures ExecAll(code, engine, s, calls).1 == Snapshot(s.sha, s.cache[s.sha := code])
  {
    ExecMissing(code, engine, s, calls[0]);
    var s1 := Exec(code, engine, s, calls[0]).1;
    ExecAllReady(code, engine, s1, calls[1..]);
    forall i | 1 <= i < |calls|
      ensures ExecAll(code, engine, s, calls).0[i] == Expected(code, engine, calls[i])
    {
      assert calls[1..][i - 1] == calls[i];
    }
  }

  /** Loading again is harmless: a second load right after a first leaves the same snapshot. */
  lemma ReloadIdempotent(code: string, digest: string -> string, s: Snapshot)
    ensures Reload(code, digest, Reload(code, digest, s)) == Reload(code, digest, s)
  {
  }

  /**
    The script cannot tell it is stale except by a failed call: on a consistent server whose
    digest does not collide, it is loaded exactly when its SHA is cached.
  */
  lemma ReadyIffCached(code: string, engine: Engine, s: Snapshot)
    requires s.sha == engine.digest(code) && Consistent(s.cache, engine.digest)
    requires forall a, b :: engine.digest(a) == engine.digest(b) ==> a == b
    ensures Ready(code, s) <==> s.sha in s.cache
  {
  }

  /** The list form with no keys and no arguments is the call with no arguments. */
  lemma EmptyListsAreNoArgs(code: string, engine: Engine, s: Snapshot)
    ensures Exec(code, engine, s, Flatten([], [])) == Exec(code, engine, s, Call(0, []))
  {
  }

  /**
    The recovery protocol on a live object: the server's cache is flushed, the next
    execution answers null and loads the script again, and the one after it answers with
    the script's own reply.
  */
  method FlushThenExecuteTwice(script: LuaScript, numKeys: int, args: seq<string>) returns (first: Reply, second: Reply)
    requires script.Valid()
    modifies script, script.server
    ensures first == Nil
    ensures second == Expected(script.code, script.server.engine, Call(numKeys, args))
    ensures script.Valid() && Ready(script.code, script.Snap())
    ensures var found := 0 <= numKeys <= |args| && script.server.engine.run(script.code, numKeys, args).Ok?;
            script.loads == old(script.loads) + (if found then 1 else 2)
  {
    script.server.Flush();
    first := script.ExecutePooled(numKeys, args);
    second := script.ExecutePooled(numKeys, args);
  }
}
