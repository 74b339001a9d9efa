# LuaScript, modelled in Dafny

`LuaScript` (Java, on the Jedis client) wraps one Lua script for Redis. The object keeps the
script's source, which never changes, and the SHA that Redis answered when the source was
loaded with SCRIPT LOAD. The constructor loads the source at once. Every execution runs
EVALSHA with the cached SHA. If Redis answers with any error, the object loads the source
again and answers null for that call. It does not retry the call, so the next call finds the
script. Executions come in several shapes:

- on a connection from the script's own pool, or on a connection the caller supplies;
- immediate, or queued on a pipeline;
- with numkeys and a flat KEYS + ARGV list, with a list of keys and a list of arguments
  (copied into one array, keys first), or with nothing.

All of them funnel into the two canonical methods.

The project has four modules:

- `Wrappers` (`wrappers.dfy`): `Option`.
- `Redis` (`redis.dfy`): the server. A `Store` holds a script cache from SHA to source.
  An `Engine` holds the two functions the model leaves uninterpreted: `digest`, the SHA that
  SCRIPT LOAD answers, and `run`, the Lua interpreter. `EvalShaOutcome` is EVALSHA. It fails
  with a data error when numkeys is negative or larger than the argument count, or when the
  SHA is not cached. Otherwise it answers whatever the script answers, and a script can fail
  too. `Flush` empties the cache; it stands for SCRIPT FLUSH, an eviction or a restart.
  `Pipeline` queues commands.
- `LuaScripts` (`luascript.dfy`): the class `LuaScript`, with its fields `server` (what the
  pool connects to), `code` and `sha`, and every constructor, factory and `execute`
  overload. A ghost counter `loads` counts calls of `loadScript`. Beside the class is a
  specification on values. `Snapshot` is the SHA together with the server's cache. `Recover`
  is what an execution does with the outcome of its one EVALSHA. `Exec` is one execution on
  the script's own server. `Flatten` turns key and argument lists into the normal form.
- `Recovery` (`recovery.dfy`): runs of several executions, and the load / execute / recover
  protocol proved over them.

The Java result `Object` is modelled as `Reply`. Jedis decodes a Redis nil reply to null, so
`Nil` stands both for a script that returned nil and for the null answered after an error,
just as the caller sees it.

The comments at `LuaScript.java:184` and `LuaScript.java:217` speak of a script that was
not loaded or was deleted, as if only that error led to a reload. The code catches every
`JedisDataException` alike (`LuaScript.java:183`, `LuaScript.java:216`). So a script runtime
error, or numkeys larger than the argument count, is swallowed too: the call answers null
and the source is loaded again. The model follows the code: one `DataError` outcome, handled
in one way.

## Model

| member | source | states |
|---|---|---|
| Redis.Load | src/main/java/com/redislabs/luascript/LuaScript.java:78 | SCRIPT LOAD caches the source under its digest and keeps every other cached script |
| Redis.LoadIdempotent | src/main/java/com/redislabs/luascript/LuaScript.java:75-81 | loading the same source twice leaves the cache as loading it once, so repeated loads are safe |
| Redis.LoadKeepsConsistent | src/main/java/com/redislabs/luascript/LuaScript.java:78 | loading keeps every cached script stored under its own digest |
| Redis.EvalShaOutcome | src/main/java/com/redislabs/luascript/LuaScript.java:215 | EVALSHA fails when the SHA is not cached or numkeys is out of range; when it succeeds, the answer is the cached script's own |
| Redis.Store.ScriptLoad | src/main/java/com/redislabs/luascript/LuaScript.java:78 | answers the digest of the source and the cache afterwards holds it |
| Redis.Store.EvalSha | src/main/java/com/redislabs/luascript/LuaScript.java:215 | succeeds exactly when the SHA is cached, numkeys is in range and the script itself succeeds; leaves the cache alone |
| Redis.Pipeline.EvalSha | src/main/java/com/redislabs/luascript/LuaScript.java:182 | queues the command at the end of the pipeline; the answer is its response slot, or the data error the store would give |
| LuaScripts.Flatten | src/main/java/com/redislabs/luascript/LuaScript.java:124-134 | numkeys is the number of keys; the flat list has the keys at positions below it and argument i at position numkeys + i |
| LuaScripts.Combine | src/main/java/com/redislabs/luascript/LuaScript.java:126-132 | the two loops fill an array of length keys + args with the keys, then the arguments; its contents are exactly the flattened list |
| LuaScripts.LuaScript.constructor | src/main/java/com/redislabs/luascript/LuaScript.java:65-70 | the source is kept as given, it is loaded once, the SHA is the server's digest of it and the server's cache holds it under that SHA |
| LuaScripts.LuaScript.FromSource | src/main/java/com/redislabs/luascript/LuaScript.java:58-60 | a new script for the given source, loaded once on the given server |
| LuaScripts.LuaScript.FromResource | src/main/java/com/redislabs/luascript/LuaScript.java:33-49 | no script and an untouched server when the resource is not found; otherwise a new script for its contents, loaded once |
| LuaScripts.LuaScript.LoadScript | src/main/java/com/redislabs/luascript/LuaScript.java:75-81 | only the SHA and the server's cache change: the SHA becomes the digest of the unchanged source and the cache holds the source under it |
| LuaScripts.LuaScript.Execute | src/main/java/com/redislabs/luascript/LuaScript.java:211-222 | on success the script's reply, with the SHA, the cache and the load count unchanged; on any data error null, exactly one load, and the script loaded afterwards |
| LuaScripts.LuaScript.ExecutePooled | src/main/java/com/redislabs/luascript/LuaScript.java:197-203 | the same reply and state as the canonical execution on a connection to the script's own server, and a load exactly when that fails |
| LuaScripts.LuaScript.ExecuteNoArgs | src/main/java/com/redislabs/luascript/LuaScript.java:88-90 | equals the pooled execution with numkeys 0 and no arguments: the same reply and state, and one load exactly when that EVALSHA fails |
| LuaScripts.LuaScript.ExecuteOn | src/main/java/com/redislabs/luascript/LuaScript.java:97-99 | equals the canonical execution on the given connection with numkeys 0 and no arguments: the same reply and state, and one load exactly when that EVALSHA fails |
| LuaScripts.LuaScript.ExecuteLists | src/main/java/com/redislabs/luascript/LuaScript.java:123-135 | equals the canonical execution with numkeys the number of keys and the keys followed by the arguments: the same reply and state, and one load exactly when that EVALSHA fails |
| LuaScripts.LuaScript.ExecuteListsPooled | src/main/java/com/redislabs/luascript/LuaScript.java:107-113 | equals the pooled execution of the flattened lists, load count included |
| LuaScripts.LuaScript.Enqueue | src/main/java/com/redislabs/luascript/LuaScript.java:178-189 | the command with the old SHA is queued; on success its response slot and no change; on a data error null and the script loaded again |
| LuaScripts.LuaScript.EnqueueLists | src/main/java/com/redislabs/luascript/LuaScript.java:146-158 | queues the same numkeys and flat list as the connection form builds, and recovers as the canonical pipelined execution does, with one load exactly when that EVALSHA fails |
| LuaScripts.LuaScript.EnqueueNoArgs | src/main/java/com/redislabs/luascript/LuaScript.java:167-169 | equals the canonical pipelined execution with numkeys 0 and no arguments, load count included |
| Recovery.ExecAll | src/main/java/com/redislabs/luascript/LuaScript.java:211-222 | a run of executions answers exactly one reply per call |
| Recovery.ExecReady | src/main/java/com/redislabs/luascript/LuaScript.java:214-221 | a loaded script answers with the script's own reply, or null for the script's own error, and leaves the SHA and the cache unchanged |
| Recovery.ExecMissing | src/main/java/com/redislabs/luascript/LuaScript.java:216-218 | a call whose SHA is not cached answers null and leaves the script loaded under its digest |
| Recovery.FailureLeavesReady | src/main/java/com/redislabs/luascript/LuaScript.java:216-218 | after any failed call, whatever the error, the script is loaded under its own SHA |
| Recovery.ExecAllReady | src/main/java/com/redislabs/luascript/LuaScript.java:211-222 | every call of a run on a loaded script answers with the script's own reply, and the state at the end is the state at the start |
| Recovery.RecoveryAfterEviction | src/main/java/com/redislabs/luascript/LuaScript.java:216-218 | after the server forgets the script, the first call answers null without retrying, every later call answers with the script's own reply, and the script ends up loaded |
| Recovery.ReloadIdempotent | src/main/java/com/redislabs/luascript/LuaScript.java:75-81 | a second load right after a first changes nothing |
| Recovery.ReadyIffCached | src/main/java/com/redislabs/luascript/LuaScript.java:22-23 | on a consistent server without digest collisions, the script is loaded exactly when its SHA is cached |
| Recovery.EmptyListsAreNoArgs | src/test/java/com/redislabs/luascript/LuaScriptTest.java:82-91 | empty key and argument lists give the same reply and state as the call without arguments |
| Recovery.FlushThenExecuteTwice | src/main/java/com/redislabs/luascript/LuaScript.java:197-222 | on a live object, after a flush the next call answers null and the one after it answers with the script's own reply; the script is loaded once more, twice if the script itself fails |

## Left out

- Reading the resource file (`LuaScript.java:36-46`) is I/O. `FromResource` takes what the class loader found as a parameter: nothing, or the string read from the resource. That string need not be the file's text. The buffer is sized by `file.length()`, which counts bytes (`LuaScript.java:44`), and is filled by a single `read` (`LuaScript.java:45`). So a file with multi-byte characters gives the decoded text padded with `'\0'` characters.
- FromResource: the `IOException` of a resource that is found but cannot be opened as a plain file is not modelled. A resource inside a jar, or a path that `getFile()` leaves URL-escaped (`LuaScript.java:42`), makes `LuaScript.java:43` throw `FileNotFoundException`, and the model has no such error.
- Building the `JedisPool` from a URI, and `getResource` and `close`, are pool plumbing. The pool is modelled as the one server it connects to (`server`). The code closes the pooled connection only on the normal path: there is no `finally` around `LuaScript.java:110` and `LuaScript.java:200`. The model has no connections to leak.
- Connection failures (`JedisConnectionException`) and any other exception outside the data errors are not modelled. The store is always reachable, and SCRIPT LOAD always succeeds.
- Lua semantics and the Redis keyspace are not modelled. `run` is an uninterpreted function of the source, numkeys and arguments, and a script's writes to keys are not modelled.
- Redis.Pipeline.EvalSha: reports the store's data error when the command is queued. The program's pipelined call only queues the command: the Javadoc at `LuaScript.java:139` and `LuaScript.java:162` says so, and the test reads the reply only from `syncAndReturnAll` (`LuaScriptTest.java:106-108`). So the data error at queue time, and the reload that `Enqueue` does on it, are what the handler at `LuaScript.java:183-186` expects. Whether a pipelined call ever reloads in practice is up to the client library. Deferring replies to `syncAndReturnAll`, and their order, are not modelled.
- Which Redis error is "script not found" is not modelled. The code treats every data error alike, so the model has one `DataError` outcome.
- Java's 32-bit `int` for numkeys and array lengths is not modelled. Numkeys is an unbounded integer, and the combined length `keys.size() + args.size()` (`LuaScript.java:126`, `LuaScript.java:149`) is taken to be below 2^31. Past that the sum wraps negative and the allocation throws `NegativeArraySizeException`, which the model does not capture.
- The unsynchronised `sha` field under concurrent use is not modelled. The model is sequential.
