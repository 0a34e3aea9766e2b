# ngrok agent supervisor, modelled in Dafny

`process.js` of the ngrok Node.js wrapper starts the ngrok tunnel agent
binary and keeps it running: the agent serves a local web API and should
be spawned only once, and again only after a start attempt failed or the
agent exited. The file also runs the binary once to save an auth token.
This project models that file and proves what it promises.

- `wrappers.dfy`: `Option`, standing for JavaScript's `undefined`/`null`.
- `log_matcher.dfy` (module `LogMatcher`): reading one stdout chunk.
  - The ready pattern `starting web service.*addr=(\d+\.\d+\.\d+\.\d+:\d+)` is a declarative predicate. `ReadyMatch` is any match; `PreferredMatch` is the match JavaScript reports. That is the leftmost start, then the last `addr=` that is followed by an address and that the greedy `.*` reaches on the marker's line (`.` never crosses `\n`, `\r`, U+2028 or U+2029), then the longest digit groups. For `…addr=1.2.3.4:5 addr=1.2.3:4` the capture is `1.2.3.4:5`.
  - A scanner (`ReadyAddr`, built on generic first/last searches) is proved to return exactly that capture.
  - The in-use test is a substring search proved against `Occurs`.
  - `Truncate` is `substring(0, 10000)`.
  - `ClassifyStdout` gives `Ready(addr)`, `InUse(msg)` or `NoEvent`. The ready test comes first.
- `promises.dfy` (module `Promises`): the settle-once promise behind `apiUrl`. Once the promise is settled, `resolve` and `reject` do nothing.
- `arguments.dfy` (module `Arguments`): the `start` and `authtoken` command lines and the working directory. A JavaScript-truthy `region` or `configPath` is one that is present and not `""`.
- `supervision.dfy` (module `Supervision`):
  - The singleton pair `processPromise` / `activeProcess` as a `Supervisor` class. It has one method per event: a `getProcess` call, a stdout chunk, a stderr chunk, the attempt's promise settling, an agent's exit, and a `killProcess` call.
  - Each method is proved equal to a pure transition on a `State` value, and to keep the invariant `Consistent`.
  - Traces of those transitions carry the lemmas: concurrent callers share one spawn; only the first settling chunk counts; the promise is dropped exactly by a failure or an exit; a kill wait completes exactly on its agent's exit.
  - Spawned agents are numbered in spawn order. An event from an older agent acts on the shared pair as its handler does. So an old agent's exit also clears a newer attempt's promise, and the next `getProcess` then spawns once more (`StaleExitRespawns`).
  - This breaks the promise of process.js:11-15 that the agent is spawned only once. A failed attempt's agent is sent `kill()`, a retry spawns a second agent, and the first agent's exit, arriving later, clears the second one's promise. The next `getProcess` spawns a third agent while the second still runs: two agents that have not exited. The model follows the code as written.
- `auth_token.dfy` (module `AuthToken`): `setAuthtoken` as an `AuthRunner` class with one-shot listeners. The first chunk decides the outcome: stdout resolves, stderr rejects with `cant set authtoken`. The agent is killed on both paths.

The code after `await apiUrl` in `startProcess` and the `catch` of `getProcess` run as one step: the `AttemptSettled` event, method `OnSettled`. They run as microtasks right after the promise settles. On success the agent becomes `activeProcess`. On failure it is killed and `processPromise` becomes `null`. In both cases the `data` listeners are removed.

## Model

| member | source | states |
|---|---|---|
| LogMatcher.LineEnd | process.js:6 | the line end is the first `\n`, `\r`, U+2028 or U+2029 at or after `k` (or the end); no terminator lies before it |
| LogMatcher.GroupsEndSound | process.js:6 | when the greedy group scanner succeeds, the text it spans matches `\d+` followed by the separated digit groups |
| LogMatcher.GroupsEndComplete | process.js:6 | any span matching the digit groups is found by the scanner, which reaches at least as far (greedy `\d+`) |
| LogMatcher.ReadyAtCorrect | process.js:6 | from a marker at `i` the scanner finds a match iff one exists; it takes the last `addr=` on the marker's line that an address follows, and the longest address after it |
| LogMatcher.ReadyAddrCorrect | process.js:6 | `ReadyAddr` is `None` iff the ready pattern does not match; otherwise it is the capture of the leftmost, greedy match, and has the `d+.d+.d+.d+:d+` shape |
| LogMatcher.CaptureAt | process.js:48-50 | a capture taken from a marker position is address-shaped |
| LogMatcher.ReadyAddr | process.js:48 | a capture the scanner reports is address-shaped; ReadyAddrCorrect adds that it is reported iff the pattern matches, and is the preferred match's |
| LogMatcher.Find | process.js:51 | a found position holds the searched text and no earlier position does; when nothing is found the text stands nowhere in the chunk |
| LogMatcher.FindCorrect | process.js:7 | the substring search succeeds iff the text occurs in the chunk |
| LogMatcher.Truncate | process.js:52 | the message has at most 10000 characters, is a prefix of the chunk, is the whole chunk when it is short enough, and otherwise has exactly 10000 characters |
| LogMatcher.ClassifyStdout | process.js:47-53 | a `Ready` capture is address-shaped; `InUse` only when "address already in use" occurs, with the chunk's first 10000 characters; `NoEvent` only when it does not occur |
| LogMatcher.ClassifyStdoutCorrect | process.js:47-53 | `Ready` iff the ready pattern matches, with the preferred capture, which is address-shaped; `InUse` iff there is no ready match and "address already in use" occurs, with the truncated chunk as message |
| Promises.Resolve | process.js:41-44 | `resolve` fulfils a pending promise and leaves a settled one unchanged |
| Promises.Reject | process.js:41-44 | `reject` rejects a pending promise and leaves a settled one unchanged |
| Promises.Apply | process.js:41-44 | one `resolve`/`reject` call gives a pending promise that call's outcome and leaves a settled one unchanged |
| Promises.ApplyAll | process.js:41-44 | after a sequence of calls the promise is still pending iff it was pending and there were no calls |
| Promises.SettledIsFinal | process.js:41-44 | a settled promise is unchanged by any sequence of later `resolve`/`reject` calls |
| Promises.FirstCallWins | process.js:41-44 | a fresh promise ends up with the outcome of the first call, and stays pending without calls |
| Arguments.WorkDir | process.js:32-36 | without `binPath` the agent runs in the default directory |
| Arguments.StartArgv | process.js:33-35 | the start command line is `start --none --log=stdout`, then `--region=<r>` if a region is given, then `--config=<p>` if a config path is given, and nothing else |
| Arguments.PrepareStart | process.js:32-36 | the pushes build exactly `StartArgv(opts)`; the directory is `binPath(defaultDir)` when `binPath` is given, else `defaultDir` |
| Arguments.StartArgvFlags | process.js:33-35 | reading the `--region=` and `--config=` flags back from the start command line gives exactly the given region and config path (none when not given) |
| Arguments.OptionsOf | process.js:106-107 | a string argument stands for `{}`: no config path and no `binPath`; an object is its own options |
| Arguments.TokenOf | process.js:106-108 | a string argument is the token itself; for an object the token is the `authtoken` property of its options, possibly absent |
| Arguments.AuthtokenArgv | process.js:106-111 | the auth command line is `authtoken`, the token (the string argument, or the object's `authtoken`, possibly absent), then `--config=<p>` exactly when the options give a config path |
| Arguments.PrepareAuthtoken | process.js:106-114 | the token choice and the push build exactly `AuthtokenArgv(arg)`; the directory follows the options of the argument |
| Arguments.PlainTokenCommand | process.js:106-114 | a plain string token gives `authtoken <token>` with no config flag and the default directory |
| Supervision.Spawned | process.js:31-44 | a freshly spawned attempt has a pending promise, attached listeners, and an agent neither killed nor exited; it satisfies the attempt invariant |
| Supervision.OnStdout | process.js:46-55 | only the promise can change; without listeners, or once settled, the chunk has no effect |
| Supervision.StdoutSettles | process.js:46-53 | on a pending attempt, a stdout chunk resolves iff the ready pattern matches, to `http://` followed by the preferred capture, which is address-shaped; it rejects iff there is no ready match and the in-use text occurs, with the chunk's first 10000 characters |
| Supervision.OnStderr | process.js:57-63 | a stderr chunk rejects a pending attempt with its first 10000 characters; otherwise nothing changes |
| Supervision.OnChunk | process.js:46-63 | a chunk on either stream changes only the attempt's promise |
| Supervision.Feed | process.js:46-63 | any sequence of chunks changes only the attempt's promise |
| Supervision.ChunkCall | process.js:46-63 | a stderr chunk always calls `reject`; every rejection carries at most 10000 characters |
| Supervision.Calls | process.js:46-63 | a sequence of chunks makes at most one settle call per chunk |
| Supervision.FeedIsSettleCalls | process.js:41-63 | while the listeners are attached, a sequence of chunks acts on the attempt exactly as the sequence of `resolve`/`reject` calls they make |
| Supervision.FirstSettlingChunkWins | process.js:41-63 | the outcome of a pending attempt is that of the first chunk that calls `resolve` or `reject`; later chunks change nothing |
| Supervision.DetachedIgnoresChunks | process.js:87-90 | once the listeners are removed, no chunk changes the attempt |
| Supervision.GetProcessStep | process.js:17-29 | with a memoised promise the state is unchanged and that attempt is awaited; otherwise one agent is spawned with `StartArgv(opts)` in `WorkDir`, and its promise is memoised |
| Supervision.StdoutStep | process.js:46-55 | a stdout chunk changes only the promise of the agent it comes from; without listeners or once settled it changes nothing |
| Supervision.StderrStep | process.js:57-63 | a stderr chunk changes only the attempt it comes from: a pending, listening attempt is rejected with the chunk's first 10000 characters; otherwise nothing changes |
| Supervision.SettledStep | process.js:78-90 | on success the agent becomes `activeProcess`; on failure it is killed and `processPromise` is cleared; in both cases the listeners are removed and nothing else changes |
| Supervision.ReleaseWaits | process.js:96-97 | every `killProcess` wait on the exiting agent completes, the others stay as they were |
| Supervision.ExitStep | process.js:65-70 | an exit clears both `processPromise` and `activeProcess` whatever they held, marks the agent exited and completes its kill waits |
| Supervision.KillProcessStep | process.js:93-100 | without an active agent nothing changes and nothing is returned; otherwise a wait on the active agent's exit is added and the agent is killed |
| Supervision.Next | process.js:9-100 | no event drops an attempt; a promise is memoised only by a `getProcess` call; an agent becomes active only when its attempt settles successfully |
| Supervision.InitialConsistent | process.js:9 | the supervisor starts with no promise, no active agent and no attempts, which is consistent |
| Supervision.GetProcessConsistent | process.js:17-29 | `getProcess` keeps the invariant: the memoised promise is the newest attempt's, and its agent has not exited |
| Supervision.StdoutConsistent | process.js:46-55 | a stdout chunk keeps the invariant |
| Supervision.StderrConsistent | process.js:57-63 | a stderr chunk keeps the invariant |
| Supervision.SettledConsistent | process.js:78-90 | settling keeps the invariant: `activeProcess` is a succeeded attempt; a failed attempt's agent is killed; listeners are removed only after settling |
| Supervision.ExitConsistent | process.js:65-70 | an exit keeps the invariant: it clears the memoised promise, and a completed kill wait's agent has exited |
| Supervision.KillProcessConsistent | process.js:93-100 | `killProcess` keeps the invariant: every wait targets an agent that was sent `kill()` |
| Supervision.NextConsistent | process.js:9-100 | every event keeps the supervisor consistent |
| Supervision.SpawnsOnlyWithoutPromise | process.js:20-22 | an event spawns an agent exactly when it is a `getProcess` call that finds no promise; earlier attempts keep their command lines and directories |
| Supervision.PromiseResetCause | process.js:26-68 | a memoised promise is dropped exactly by an agent's exit or by the settling of a failed attempt |
| Supervision.KillWaitsForExit | process.js:96-99 | the promise `killProcess` returns is not complete at first, and the next event completes it exactly when it is the exit of the agent that was active |
| Supervision.StaleExitRespawns | process.js:65-70 | an older agent's exit clears the newest attempt's promise, so the next `getProcess` spawns another agent while that attempt is left as it was; neither of the two agents has exited |
| Supervision.MemoisedCallsShare | process.js:20 | with a memoised promise, any number of `getProcess` calls change nothing and all await that attempt |
| Supervision.ConcurrentCallsSpawnOnce | process.js:11-29 | a burst of `getProcess` calls spawns at most one agent (exactly one when nothing is memoised), and all of them await the same attempt |
| Supervision.Supervisor.constructor | process.js:4-9 | the binary directory is `bin` under the module directory; there is no promise, no active agent and no attempt |
| Supervision.Supervisor.GetProcess | process.js:17-29 | the method's new state and result are `GetProcessStep` of the old state; the invariant is kept |
| Supervision.Supervisor.OnStdoutData | process.js:46-55 | the stdout listener's effect is `OnStdout` on that agent's attempt; the invariant is kept |
| Supervision.Supervisor.OnStderrData | process.js:57-63 | the stderr listener's effect is `OnStderr` on that agent's attempt; the invariant is kept |
| Supervision.Supervisor.OnSettled | process.js:78-90 | the new state is `SettledStep` of the old, and the callers receive the attempt's outcome; the invariant is kept |
| Supervision.Supervisor.OnExit | process.js:65-70 | the new state is `ExitStep` of the old; the invariant is kept |
| Supervision.Supervisor.KillProcess | process.js:93-100 | the new state and result are `KillProcessStep` of the old; the invariant is kept |
| AuthToken.OnData | process.js:117-120 | a chunk fires its stream's one-shot listener and detaches it; a settled outcome is unchanged; nothing is killed |
| AuthToken.Finish | process.js:122-127 | the `finally` kills the agent and leaves the outcome as it was |
| AuthToken.Feed | process.js:117-120 | chunks never kill the agent |
| AuthToken.FeedKeepsOutcome | process.js:117-120 | once settled, the outcome survives any further chunks |
| AuthToken.FirstChunkDecides | process.js:117-120 | without chunks the outcome is pending; otherwise it is decided by the stream of the first chunk; the agent is not killed before the outcome is known |
| AuthToken.AuthOutcome | process.js:117-127 | after at least one chunk, `setAuthtoken` resolves when the first chunk is on stdout and rejects with `cant set authtoken` when it is on stderr; the agent is killed on both paths |
| AuthToken.AuthRunner.constructor | process.js:105-120 | the command line is `AuthtokenArgv(arg)`, the directory is `WorkDir` of the argument's options, both listeners are attached and nothing is settled |
| AuthToken.AuthRunner.OnStdoutData | process.js:118 | the new state is `OnData` with a stdout chunk |
| AuthToken.AuthRunner.OnStderrData | process.js:119 | the new state is `OnData` with a stderr chunk |
| AuthToken.AuthRunner.Settled | process.js:122-127 | the agent is killed and the caller receives the settled outcome |

## Left out

- Spawning, pipes, the OS process and `console.log`/`process.pid` are absent (process.js:1, 18-19, 38, 54, 59-61, 66-67, 94). They are I/O. A spawned agent is an index with `killed` and `exited` flags. `data.toString()` is taken to give the chunk as a string.
- The platform-dependent binary name (process.js:2, 5) is absent. `binPath` is an abstract function of the options.
- The host `process.on('exit')` hook (process.js:72-76) is absent. It only calls `killProcess` at host shutdown, and it is registered again on every start.
- Asynchrony is absent. Every callback is an event applied to the state. The microtasks between a settled `apiUrl` and the `catch` of `getProcess` run as one event. `getProcess` returns the index of the attempt whose promise the caller awaits, not a promise.
- An `error` event from `spawn` (for instance a missing binary) is absent: the source registers no handler for it.
- The exit code and signal are absent. The source only logs them.
- Lengths count Dafny characters. JavaScript's `substring` counts UTF-16 code units, which differ for characters outside the Basic Multilingual Plane.
- `setAuthtoken` called with something other than a string or an options object is absent. For `undefined` or `null`, reading `opts.authtoken` throws.
- A missing token is kept as `None`. What `spawn` does with an `undefined` argument is not modelled.
- Timeouts are absent, because the source has none. An agent's exit does not settle its attempt. Only a chunk still delivered from its pipes can settle it, and no timeout does.
- A general regular-expression engine is absent. Only the ready pattern and the in-use text are specified.
