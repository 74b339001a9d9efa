/**
  LuaScript: a Lua script bound to the Redis server it is loaded on. The object keeps
  the source, immutable, and the SHA the server answered for it; every execution runs
  EVALSHA with that SHA and, on any data error, loads the script again and answers
  null for that call, without retrying it.
*/
module LuaScripts {
  import opened Wrappers
  import opened Redis

  /** What an execution can change: the script's SHA and the server's script cache. */
  datatype Snapshot = Snapshot(sha: string, cache: map<string, string>)

  /** One invocation in its normal form: numkeys and the flat KEYS + ARGV list. */
  datatype Call = Call(numKeys: int, args: seq<string>)

  /** The normal form of an invocation given as a list of keys and a list of arguments. */
  function Flatten(keys: seq<string>, args: seq<string>): (c: Call)
    ensures c.numKeys == |keys| && |c.args| == |keys| + |args|
    ensures forall i :: 0 <= i < |keys| ==> c.args[i] == keys[i]
    ensures forall i :: 0 <= i < |args| ==> c.args[|keys| + i] == args[i]
  {
    Call(|keys|, keys + args)
  }

  /** The snapshot after loadScript: the SHA the server answers, and the cache holding the source. */
  function Reload(code: string, digest: string -> string, s: Snapshot): Snapshot
  {
    Snapshot(digest(code), Load(s.cache, digest, code))
  }

  /** What an execution does with the outcome of its one EVALSHA: the answer and the new snapshot. */
  function Recover(code: string, digest: string -> string, s: Snapshot, o: Outcome<Reply>): (Reply, Snapshot)
  {
    match o
    case Ok(v) => (v, s)
    case DataError => (Nil, Reload(code, digest, s))
  }

  /** An execution on a connection to the script's own server. */
  function Exec(code: string, engine: Engine, s: Snapshot, c: Call): (Reply, Snapshot)
  {
    Recover(code, engine.digest, s, EvalShaOutcome(s.cache, engine, s.sha, c.numKeys, c.args))
  }

  /** The script's SHA names its own source in the server's cache. */
  predicate Ready(code: string, s: Snapshot)
  {
    s.sha in s.cache && s.cache[s.sha] == code
  }

  /** What the caller sees when the script is found: the script's own reply, or null for an error. */
  function Expected(code: string, engine: Engine, c: Call): Reply
  {
    if 0 <= c.numKeys <= |c.args| then
      match engine.run(code, c.numKeys, c.args)
      case Ok(v) => v
      case DataError => Nil
    else
      Nil
  }

  /** Fills a fresh array with the keys followed by the arguments. */
  method Combine(keys: seq<string>, args: seq<string>) returns (combined: array<string>)
    ensures combined.Length == |keys| + |args|
    ensures forall i :: 0 <= i < |keys| ==> combined[i] == keys[i]
    ensures forall i :: 0 <= i < |args| ==> combined[|keys| + i] == args[i]
    ensures Call(|keys|, combined[..]) == Flatten(keys, args)
  {
    combined := new string[|keys| + |args|];
    for i := 0 to |keys|
      invariant forall j :: 0 <= j < i ==> combined[j] == keys[j]
    {
      combined[i] := keys[i];
    }
    for i := 0 to |args|
      invariant forall j :: 0 <= j < |keys| ==> combined[j] == keys[j]
      invariant forall j :: 0 <= j < i ==> combined[|keys| + j] == args[j]
    {
      combined[|keys| + i] := args[i];
    }
    assert combined[..] == keys + args;
  }

  class LuaScript {
    /** The server the script's connection pool connects to. */
    const server: Store
    /** The Lua source, never changed after construction. */
    const code: string
    /** The SHA the server answered when the source was last loaded. */
    var sha: string
    /** How many times the source has been loaded. */
    ghost var loads: nat

    /** The SHA is the one the server gives for this source: it is only ever set by loading. */
    ghost predicate Valid()
      reads this
    {
      sha == server.engine.digest(code)
    }

    function Snap(): Snapshot
      reads this, server
    {
      Snapshot(sha, server.cache)
    }

    constructor (sourceCode: string, server: Store)
      modifies server
      ensures this.code == sourceCode && this.server == server
      ensures Valid() && loads == 1
      ensures server.cache == Load(old(server.cache), server.engine.digest, sourceCode)
      ensures Ready(code, Snap())
    {
      this.server := server;
      code := sourceCode;
      loads := 0;
      new;
      LoadScript();
    }

    static method FromSource(source: string, server: Store) returns (s: LuaScript)
      modifies server
      ensures fresh(s) && s.code == source && s.server == server
      ensures s.Valid() && s.loads == 1
      ensures server.cache == Load(old(server.cache), server.engine.digest, source)
    {
      s := new LuaScript(source, server);
    }

    /**
      `resource` is the string read from the resource the class loader found under the
      resource name: None when it found nothing, in which case no script is created and
      the server is untouched.
    */
    static method FromResource(resource: Option<string>, server: Store) returns (r: Option<LuaScript>)
      modifies server
      ensures r.Some? <==> resource.Some?
      ensures resource.None? ==> server.cache == old(server.cache)
      ensures r.Some? ==> fresh(r.value) && r.value.code == resource.value && r.value.server == server
                          && r.value.Valid() && r.value.loads == 1
                          && server.cache == Load(old(server.cache), server.engine.digest, resource.value)
    {
      if resource.None? {
        r := None;
      } else {
        var s := FromSource(resource.value, server);
        r := Some(s);
      }
    }

    /** SCRIPT LOAD of the source; the answered SHA replaces the cached one. */
    method LoadScript()
      modifies this, server
      ensures Valid() && Ready(code, Snap())
      ensures Snap() == Reload(code, server.engine.digest, old(Snap()))
      ensures loads == old(loads) + 1
    {
      sha := server.ScriptLoad(code);
      loads := loads + 1;
    }

    /**
      EVALSHA on `conn`, which may be a connection to another server than the script's
      own: on success the reply and no change; on a data error null, and the source is
      loaded, once, on the script's own server.
    */
    method Execute(conn: Store, numKeys: int, args: seq<string>) returns (res: Reply)
      modifies this, server
      ensures var o := old(EvalShaOutcome(conn.cache, conn.engine, sha, numKeys, args));
              (res, Snap()) == Recover(code, server.engine.digest, old(Snap()), o)
      ensures var o := old(EvalShaOutcome(conn.cache, conn.engine, sha, numKeys, args));
              o.Ok? ==> res == o.value && sha == old(sha) && server.cache == old(server.cache) && loads == old(loads)
      ensures var o := old(EvalShaOutcome(conn.cache, conn.engine, sha, numKeys, args));
              o.DataError? ==> res == Nil && Valid() && Ready(code, Snap()) && loads == old(loads) + 1
    {
      res := Nil;
      var o := conn.EvalSha(sha, numKeys, args);
      match o
      case Ok(v) =>
        res := v;
      case DataError =>
        LoadScript();
    }

    /** Execution on a connection taken from the script's pool, so on its own server. */
    method ExecutePooled(numKeys: int, args: seq<string>) returns (res: Reply)
      modifies this, server
      ensures (res, Snap()) == Exec(code, server.engine, old(Snap()), Call(numKeys, args))
      ensures loads == if old(EvalShaOutcome(server.cache, server.engine, sha, numKeys, args)).Ok?
                       then old(loads) else old(loads) + 1
    {
      res := Execute(server, numKeys, args);
    }

    /** Execution without keys or arguments, on a pooled connection. */
    method ExecuteNoArgs() returns (res: Reply)
      modifies this, server
      ensures (res, Snap()) == Exec(code, server.engine, old(Snap()), Call(0, []))
      ensures loads == if old(EvalShaOutcome(server.cache, server.engine, sha, 0, [])).Ok?
                       then old(loads) else old(loads) + 1
    {
      res := ExecutePooled(0, []);
    }

    /** Execution without keys or arguments, on a given connection. */
    method ExecuteOn(conn: Store) returns (res: Reply)
      modifies this, server
      ensures (res, Snap()) == Recover(code, server.engine.digest, old(Snap()),
                                       old(EvalShaOutcome(conn.cache, conn.engine, sha, 0, [])))
      ensures loads == if old(EvalShaOutcome(conn.cache, conn.engine, sha, 0, [])).Ok?
                       then old(loads) else old(loads) + 1
    {
      res := Execute(conn, 0, []);
    }

    /** Execution with a list of keys and a list of arguments, on a given connection. */
    method ExecuteLists(conn: Store, keys: seq<string>, args: seq<string>) returns (res: Reply)
      modifies this, server
      ensures var c := Flatten(keys, args);
              (res, Snap()) == Recover(code, server.engine.digest, old(Snap()),
                                       old(EvalShaOutcome(conn.cache, conn.engine, sha, c.numKeys, c.args)))
      ensures var c := Flatten(keys, args);
              loads == if old(EvalShaOutcome(conn.cache, conn.engine, sha, c.numKeys, c.args)).Ok?
                       then old(loads) else old(loads) + 1
    {
      var combined := Combine(keys, args);
      res := Execute(conn, |keys|, combined[..]);
    }

    /** Execution with a list of keys and a list of arguments, on a pooled connection. */
    method ExecuteListsPooled(keys: seq<string>, args: seq<string>) returns (res: Reply)
      modifies this, server
      ensures (res, Snap()) == Exec(code, server.engine, old(Snap()), Flatten(keys, args))
      ensures var c := Flatten(keys, args);
              loads == if old(EvalShaOutcome(server.cache, server.engine, sha, c.numKeys, c.args)).Ok?
                       then old(loads) else old(loads) + 1
    {
      res := ExecuteLists(server, keys, args);
    }

    /**
      EVALSHA queued on a pipeline: the response slot on success; on a data error null,
      and the source is loaded on the script's own server. The command is queued either way.
    */
    method Enqueue(pipe: Pipeline, numKeys: int, args: seq<string>) returns (res: Option<Response>)
      modifies this, server, pipe
      ensures pipe.queued == old(pipe.queued) + [EvalShaCommand(old(sha), numKeys, args)]
      ensures var o := old(EvalShaOutcome(pipe.store.cache, pipe.store.engine, sha, numKeys, args));
              o.Ok? ==> res == Some(Response(|old(pipe.queued)|)) && Snap() == old(Snap()) && loads == old(loads)
      ensures var o := old(EvalShaOutcome(pipe.store.cache, pipe.store.engine, sha, numKeys, args));
              o.DataError? ==> res == None && Snap() == Reload(code, server.engine.digest, old(Snap()))
                               && loads == old(loads) + 1
    {
      res := None;
      var o := pipe.EvalSha(sha, numKeys, args);
      match o
      case Ok(h) =>
        res := Some(h);
      case DataError =>
        LoadScript();
    }

    /** Pipelined execution with a list of keys and a list of arguments. */
    method EnqueueLists(pipe: Pipeline, keys: seq<string>, args: seq<string>) returns (res: Option<Response>)
      modifies this, server, pipe
      ensures var c := Flatten(keys, args);
              pipe.queued == old(pipe.queued) + [EvalShaCommand(old(sha), c.numKeys, c.args)]
      ensures var c := Flatten(keys, args);
              var o := old(EvalShaOutcome(pipe.store.cache, pipe.store.engine, sha, c.numKeys, c.args));
              (o.Ok? ==> res == Some(Response(|old(pipe.queued)|)) && Snap() == old(Snap())) &&
              (o.DataError? ==> res == None && Snap() == Reload(code, server.engine.digest, old(Snap())))
      ensures var c := Flatten(keys, args);
              loads == if old(EvalShaOutcome(pipe.store.cache, pipe.store.engine, sha, c.numKeys, c.args)).Ok?
                       then old(loads) else old(loads) + 1
    {
      var combined := Combine(keys, args);
      res := Enqueue(pipe, |keys|, combined[..]);
    }

    /** Pipelined execution without keys or arguments. */
    method EnqueueNoArgs(pipe: Pipeline) returns (res: Option<Response>)
      modifies this, server, pipe
      ensures pipe.queued == old(pipe.queued) + [EvalShaCommand(old(sha), 0, [])]
      ensures var o := old(EvalShaOutcome(pipe.store.cache, pipe.store.engine, sha, 0, []));
              (o.Ok? ==> res == Some(Response(|old(pipe.queued)|)) && Snap() == old(Snap())) &&
              (o.DataError? ==> res == None && Snap() == Reload(code, server.engine.digest, old(Snap())))
      ensures loads == if old(EvalShaOutcome(pipe.store.cache, pipe.store.engine, sha, 0, [])).Ok?
                       then old(loads) else old(loads) + 1
    {
      res := Enqueue(pipe, 0, []);
    }
  }
}
