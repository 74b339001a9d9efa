/**
  The Redis server as LuaScript sees it: a script cache from SHA to source,
  SCRIPT LOAD, EVALSHA and SCRIPT FLUSH. The digest and the Lua interpreter
  are not modelled; they are the two functions of an `Engine`, fixed per server.
*/
module Redis {

  /** A reply as the Java client decodes it; `Nil` is what reaches the caller as null. */
  datatype Reply = Nil | Bulk(s: string) | Integer(n: int) | Multi(items: seq<Reply>)

  /** The result of one command: a value, or an error reply, which the client raises as a data exception. */
  datatype Outcome<T> = Ok(value: T) | DataError

  /**
    The server's scripting engine: `digest` is what SCRIPT LOAD answers for a source
    (its SHA-1), `run` evaluates a source with numkeys and the flat KEYS + ARGV list;
    a script can itself fail with an error reply.
  */
  datatype Engine = Engine(digest: string -> string, run: (string, nat, seq<string>) -> Outcome<Reply>)

  /** Every cached script is stored under its own digest. */
  ghost predicate Consistent(cache: map<string, string>, digest: string -> string)
  {
    forall id :: id in cache ==> digest(cache[id]) == id
  }

  /** The script cache after SCRIPT LOAD of `code`. */
  function Load(cache: map<string, string>, digest: string -> string, code: string): (c: map<string, string>)
    ensures c.Keys == cache.Keys + {digest(code)}
    ensures c[digest(code)] == code
    ensures forall id :: id in cache && id != digest(code) ==> c[id] == cache[id]
  {
    cache[digest(code) := code]
  }

  /**
    The outcome of EVALSHA sha numKeys args against a cache: an error when numkeys is
    negative or exceeds the argument count, or when no script is cached under `sha`
    (NOSCRIPT); otherwise whatever the cached script itself yields.
  */
  function EvalShaOutcome(cache: map<string, string>, engine: Engine, sha: string, numKeys: int, args: seq<string>): (o: Outcome<Reply>)
    ensures sha !in cache ==> o == DataError
    ensures (numKeys < 0 || numKeys > |args|) ==> o == DataError
    ensures o.Ok? ==> sha in cache && 0 <= numKeys <= |args| && engine.run(cache[sha], numKeys, args) == o
  {
    if numKeys < 0 || numKeys > |args| then DataError
    else if sha !in cache then DataError
    else engine.run(cache[sha], numKeys, args)
  }

  lemma LoadKeepsConsistent(cache: map<string, string>, digest: string -> string, code: string)
    requires Consistent(cache, digest)
    ensures Consistent(Load(cache, digest, code), digest)
  {
  }

  /** SCRIPT LOAD is idempotent: loading the same source twice leaves the cache as loading it once. */
  lemma LoadIdempotent(cache: map<string, string>, digest: string -> string, code: string)
    ensures Load(Load(cache, digest, code), digest, code) == Load(cache, digest, code)
  {
  }

  /** One Redis server, reached through any connection or pipeline to it. */
  class Store {
    const engine: Engine
    var cache: map<string, string>

    constructor (engine: Engine)
      ensures this.engine == engine && cache == map[]
    {
      this.engine := engine;
      cache := map[];
    }

    /** SCRIPT LOAD: caches `code` under its digest and answers the digest. */
    method ScriptLoad(code: string) returns (sha: string)
      modifies this
      ensures sha == engine.digest(code)
      ensures cache == Load(old(cache), engine.digest, code)
    {
      sha := engine.digest(code);
      cache := cache[sha := code];
    }

    /** EVALSHA: runs the script cached under `sha`; it changes no script cache. */
    method EvalSha(sha: string, numKeys: int, args: seq<string>) returns (o: Outcome<Reply>)
      ensures o == EvalShaOutcome(cache, engine, sha, numKeys, args)
      ensures o.Ok? <==> sha in cache && 0 <= numKeys <= |args| && engine.run(cache[sha], numKeys, args).Ok?
    {
      o := EvalShaOutcome(cache, engine, sha, numKeys, args);
    }

    /** SCRIPT FLUSH, or any eviction that empties the script cache (a restart). */
    method Flush()
      modifies this
      ensures cache == map[]
    {
      cache := map[];
    }
  }

  /** One EVALSHA command as queued on a pipeline. */
  datatype Command = EvalShaCommand(sha: string, numKeys: int, args: seq<string>)

  /** The handle a pipeline gives back for a queued command: its position in the batch. */
  datatype Response = Response(slot: nat)

  /** A pipeline on a connection to `store`: commands are queued in order, to be synchronised by the caller. */
  class Pipeline {
    const store: Store
    var queued: seq<Command>

    constructor (store: Store)
      ensures this.store == store && queued == []
    {
      this.store := store;
      queued := [];
    }

    /**
      Queues EVALSHA and hands back the response slot for it; a data error the store
      would answer is reported at this call, which is what the caller's exception
      handler relies on.
    */
    method EvalSha(sha: string, numKeys: int, args: seq<string>) returns (o: Outcome<Response>)
      modifies this
      ensures queued == old(queued) + [EvalShaCommand(sha, numKeys, args)]
      ensures o.Ok? <==> EvalShaOutcome(store.cache, store.engine, sha, numKeys, args).Ok?
      ensures o.Ok? ==> o.value == Response(|old(queued)|)
    {
      var slot := |queued|;
      queued := queued + [EvalShaCommand(sha, numKeys, args)];
      var answer := store.EvalSha(sha, numKeys, args);
      if answer.Ok? {
        o := Ok(Response(slot));
      } else {
        o := DataError;
      }
    }
  }
}
