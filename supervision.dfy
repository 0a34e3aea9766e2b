/**
 * The supervisor of the tunnel agent: the module-level pair
 * `processPromise` / `activeProcess`, the start attempts it launches and the
 * events that move it (a `getProcess` call, a chunk on an agent's stdout or
 * stderr, an attempt's promise settling, an agent's exit, a `killProcess`
 * call). The agent should run only once; it is started again only after a
 * failed attempt or an exit.
 *
 * Spawned agents are identified by spawn order: attempt `id` is
 * `attempts[id]`, and `processPromise` / `activeProcess` hold such an id.
 * Events name the agent they come from, so an event from an older agent
 * acts on the shared pair just as its handler does.
 */
module Supervision {
  import opened Wrappers
  import opened Promises
  import opened LogMatcher
  import opened Arguments

  /** The API URL is the captured address behind this scheme. */
  const UrlScheme: string := "http://"

  /** One spawned agent and its start attempt. */
  datatype Attempt = Attempt(
    argv: seq<string>,
    cwd: string,
    /** The attempt's promise `apiUrl`. */
    apiUrl: Settle<string>,
    /** The stdout and stderr `data` listeners are still attached. */
    listening: bool,
    /** `kill()` has been sent to the agent. */
    killed: bool,
    /** The agent's `exit` event has fired. */
    exited: bool)

  /** A `killProcess` promise: it waits for the exit of `target`. */
  datatype KillWait = KillWait(target: nat, done: bool)

  datatype State = State(
    processPromise: Option<nat>,
    activeProcess: Option<nat>,
    attempts: seq<Attempt>,
    waits: seq<KillWait>)

  const Initial: State := State(None, None, [], [])

  /** The attempt launched with the `start` command line for `opts`. */
  function Spawned(opts: Options, defaultDir: string): (a: Attempt)
    ensures a.apiUrl == Pending && a.listening && !a.killed && !a.exited
    ensures AttemptOk(a)
  {
    Attempt(StartArgv(opts), WorkDir(opts, defaultDir), Pending, true, false, false)
  }

  // ---------------------------------------------------------------------
  // Reactions of one attempt to its output
  // ---------------------------------------------------------------------

  /** The stdout `data` listener: a ready line resolves, otherwise an in-use message rejects. */
  function OnStdout(a: Attempt, chunk: string): (r: Attempt)
    ensures r == a.(apiUrl := r.apiUrl)
    ensures !a.listening || !a.apiUrl.Pending? ==> r == a
  {
    if !a.listening then a
    else
      match ClassifyStdout(chunk)
      case Ready(addr) => a.(apiUrl := Resolve(a.apiUrl, UrlScheme + addr))
      case InUse(m) => a.(apiUrl := Reject(a.apiUrl, m))
      case NoEvent => a
  }

  /**
   * A chunk on the stdout of a listening, pending attempt resolves it with
   * the ready pattern's capture, or rejects it when only the in-use text
   * occurs; the ready test comes first.
   */
  lemma {:induction false} StdoutSettles(a: Attempt, chunk: string)
    requires a.listening && a.apiUrl.Pending?
    ensures OnStdout(a, chunk).apiUrl.Resolved? <==> exists i: nat, j: nat, e: nat :: ReadyMatch(chunk, i, j, e)
    ensures OnStdout(a, chunk).apiUrl.Resolved? ==>
      exists i: nat, j: nat, e: nat ::
        PreferredMatch(chunk, i, j, e) && OnStdout(a, chunk).apiUrl.value == UrlScheme + chunk[j + |AddrKey|..e]
    ensures OnStdout(a, chunk).apiUrl.Resolved? ==>
      exists addr :: OnStdout(a, chunk).apiUrl.value == UrlScheme + addr && AddrShape(addr)
    ensures OnStdout(a, chunk).apiUrl.Rejected? <==>
      (forall i: nat, j: nat, e: nat :: !ReadyMatch(chunk, i, j, e)) && Occurs(InUseText, chunk)
    ensures OnStdout(a, chunk).apiUrl.Rejected? ==>
      OnStdout(a, chunk).apiUrl.reason == Truncate(chunk) && |OnStdout(a, chunk).apiUrl.reason| <= MaxMessage
  {
    ClassifyStdoutCorrect(chunk);
  }

  /** The stderr `data` listener: any chunk rejects with its first 10000 characters. */
  function OnStderr(a: Attempt, chunk: string): (r: Attempt)
    ensures r == a.(apiUrl := r.apiUrl)
    ensures !a.listening || !a.apiUrl.Pending? ==> r == a
    ensures a.listening && a.apiUrl.Pending? ==> r.apiUrl == Rejected(Truncate(chunk))
  {
    if !a.listening then a else a.(apiUrl := Reject(a.apiUrl, Truncate(chunk)))
  }

  /** A chunk on one of the agent's output streams. */
  datatype Chunk = Out(text: string) | Err(text: string)

  function OnChunk(a: Attempt, c: Chunk): (r: Attempt)
    ensures r == a.(apiUrl := r.apiUrl)
  {
    match c
    case Out(t) => OnStdout(a, t)
    case Err(t) => OnStderr(a, t)
  }

  /** The attempt after its listeners have seen `cs`, in order. */
  function Feed(a: Attempt, cs: seq<Chunk>): (r: Attempt)
    ensures r == a.(apiUrl := r.apiUrl)
    decreases |cs|
  {
    if cs == [] then a else Feed(OnChunk(a, cs[0]), cs[1..])
  }

  /** The call a chunk makes on the attempt's `resolve` / `reject`, if any. */
  function ChunkCall(c: Chunk): (r: Option<SettleCall<string>>)
    ensures c.Err? ==> r.Some? && r.value.CallReject?
    ensures r.Some? && r.value.CallReject? ==> |r.value.reason| <= MaxMessage
  {
    match c
    case Err(t) => Some(CallReject(Truncate(t)))
    case Out(t) =>
      match ClassifyStdout(t)
      case Ready(addr) => Some(CallResolve(UrlScheme + addr))
      case InUse(m) => Some(CallReject(m))
      case NoEvent => None
  }

  /** The settle calls the chunks `cs` make, in order. */
  function Calls(cs: seq<Chunk>): (r: seq<SettleCall<string>>)
    ensures |r| <= |cs|
    decreases |cs|
  {
    if cs == [] then []
    else (if ChunkCall(cs[0]).Some? then [ChunkCall(cs[0]).value] else []) + Calls(cs[1..])
  }

  /** While listening, a chunk acts on the attempt only through its settle call. */
  lemma {:induction false} OnChunkIsCall(a: Attempt, c: Chunk)
    requires a.listening
    ensures OnChunk(a, c) == a.(apiUrl := if ChunkCall(c).Some? then Apply(a.apiUrl, ChunkCall(c).value) else a.apiUrl)
  {
  }

  /** Feeding chunks to a listening attempt is applying their settle calls to its promise. */
  lemma {:induction false} FeedIsSettleCalls(a: Attempt, cs: seq<Chunk>)
    requires a.listening
    ensures Feed(a, cs) == a.(apiUrl := ApplyAll(a.apiUrl, Calls(cs)))
    decreases |cs|
  {
    if cs != [] {
      OnChunkIsCall(a, cs[0]);
      var a' := OnChunk(a, cs[0]);
      FeedIsSettleCalls(a', cs[1..]);
      var head: seq<SettleCall<string>> := if ChunkCall(cs[0]).Some? then [ChunkCall(cs[0]).value] else [];
      assert Calls(cs) == head + Calls(cs[1..]);
      if ChunkCall(cs[0]).Some? {
        assert Calls(cs)[0] == ChunkCall(cs[0]).value;
        assert Calls(cs)[1..] == Calls(cs[1..]);
      } else {
        assert Calls(cs) == Calls(cs[1..]);
      }
    }
  }

  /** Only the first chunk that settles the attempt decides its outcome. */
  lemma {:induction false} FirstSettlingChunkWins(a: Attempt, cs: seq<Chunk>)
    requires a.listening && a.apiUrl.Pending?
    ensures Calls(cs) == [] ==> Feed(a, cs).apiUrl == Pending
    ensures Calls(cs) != [] ==> Feed(a, cs).apiUrl == Outcome(Calls(cs)[0])
  {
    FeedIsSettleCalls(a, cs);
    FirstCallWins(Calls(cs));
  }

  /** With its listeners detached an attempt ignores every chunk. */
  lemma {:induction false} DetachedIgnoresChunks(a: Attempt, cs: seq<Chunk>)
    requires !a.listening
    ensures Feed(a, cs) == a
    decreases |cs|
  {
    if cs != [] {
      DetachedIgnoresChunks(OnChunk(a, cs[0]), cs[1..]);
    }
  }

  // ---------------------------------------------------------------------
  // Transitions of the supervisor
  // ---------------------------------------------------------------------

  /** `getProcess(opts)`: the memoised attempt, or a freshly spawned one; returns the attempt awaited. */
  function GetProcessStep(st: State, opts: Options, defaultDir: string): (r: (State, nat))
    ensures st.processPromise.Some? ==> r == (st, st.processPromise.value)
    ensures st.processPromise.None? ==>
      && r.1 == |st.attempts|
      && r.0 == st.(processPromise := Some(|st.attempts|), attempts := st.attempts + [Spawned(opts, defaultDir)])
  {
    if st.processPromise.Some? then (st, st.processPromise.value)
    else
      var id := |st.attempts|;
      (st.(processPromise := Some(id), attempts := st.attempts + [Spawned(opts, defaultDir)]), id)
  }

  /** A chunk on the stdout of agent `id`. */
  function StdoutStep(st: State, id: nat, chunk: string): (r: State)
    requires id < |st.attempts|
    ensures r == st.(attempts := r.attempts) && |r.attempts| == |st.attempts|
    ensures forall k :: 0 <= k < |st.attempts| && k != id ==> r.attempts[k] == st.attempts[k]
    ensures r.attempts[id] == st.attempts[id].(apiUrl := r.attempts[id].apiUrl)
    ensures !st.attempts[id].listening || !st.attempts[id].apiUrl.Pending? ==> r == st
  {
    st.(attempts := st.attempts[id := OnStdout(st.attempts[id], chunk)])
  }

  /** A chunk on the stderr of agent `id`. */
  function StderrStep(st: State, id: nat, chunk: string): (r: State)
    requires id < |st.attempts|
    ensures r == st.(attempts := r.attempts) && |r.attempts| == |st.attempts|
    ensures forall k :: 0 <= k < |st.attempts| && k != id ==> r.attempts[k] == st.attempts[k]
    ensures !st.attempts[id].listening || !st.attempts[id].apiUrl.Pending? ==> r == st
    ensures st.attempts[id].listening && st.attempts[id].apiUrl.Pending? ==>
      r.attempts[id] == st.attempts[id].(apiUrl := Rejected(Truncate(chunk)))
  {
    st.(attempts := st.attempts[id := OnStderr(st.attempts[id], chunk)])
  }

  /**
   * Attempt `id`'s promise has settled; the code after `await apiUrl` runs.
   * On success the agent becomes the active process; on failure it is
   * killed and `processPromise` is cleared, so a later call starts afresh.
   * Either way both listeners are detached.
   */
  function SettledStep(st: State, id: nat): (r: State)
    requires id < |st.attempts| && st.attempts[id].listening && !st.attempts[id].apiUrl.Pending?
    ensures |r.attempts| == |st.attempts| && r.waits == st.waits
    ensures forall k :: 0 <= k < |st.attempts| && k != id ==> r.attempts[k] == st.attempts[k]
    ensures r.attempts[id] == st.attempts[id].(listening := false, killed := r.attempts[id].killed)
    ensures st.attempts[id].apiUrl.Resolved? ==>
      && r.activeProcess == Some(id) && r.processPromise == st.processPromise
      && r.attempts[id].killed == st.attempts[id].killed
    ensures st.attempts[id].apiUrl.Rejected? ==>
      && r.processPromise == None && r.activeProcess == st.activeProcess
      && r.attempts[id].killed
  {
    var a := st.attempts[id];
    if a.apiUrl.Resolved? then
      st.(activeProcess := Some(id), attempts := st.attempts[id := a.(listening := false)])
    else
      st.(processPromise := None, attempts := st.attempts[id := a.(listening := false, killed := true)])
  }

  /** Every wait on `id` completes. */
  function ReleaseWaits(ws: seq<KillWait>, id: nat): (r: seq<KillWait>)
    ensures |r| == |ws|
    ensures forall k :: 0 <= k < |ws| ==> r[k] == ws[k].(done := ws[k].done || ws[k].target == id)
    decreases |ws|
  {
    if ws == [] then []
    else [ws[0].(done := ws[0].done || ws[0].target == id)] + ReleaseWaits(ws[1..], id)
  }

  /** The `exit` event of agent `id`: the shared pair is cleared whatever it held. */
  function ExitStep(st: State, id: nat): (r: State)
    requires id < |st.attempts| && !st.attempts[id].exited
    ensures r.processPromise == None && r.activeProcess == None
    ensures r.attempts == st.attempts[id := st.attempts[id].(exited := true)]
    ensures r.waits == ReleaseWaits(st.waits, id)
  {
    State(None, None, st.attempts[id := st.attempts[id].(exited := true)], ReleaseWaits(st.waits, id))
  }

  /** `killProcess()`: nothing without an active agent; otherwise a wait on its exit, then `kill()`. */
  function KillProcessStep(st: State): (r: (State, Option<nat>))
    requires st.activeProcess.Some? ==> st.activeProcess.value < |st.attempts|
    ensures st.activeProcess.None? ==> r == (st, None)
    ensures st.activeProcess.Some? ==>
      var t := st.activeProcess.value;
      && r.1 == Some(|st.waits|)
      && r.0 == st.(attempts := st.attempts[t := st.attempts[t].(killed := true)], waits := st.waits + [KillWait(t, false)])
  {
    match st.activeProcess
    case None => (st, None)
    case Some(t) =>
      (st.(attempts := st.attempts[t := st.attempts[t].(killed := true)], waits := st.waits + [KillWait(t, false)]),
       Some(|st.waits|))
  }

  // ---------------------------------------------------------------------
  // Invariant
  // ---------------------------------------------------------------------

  /** Listeners are detached only once the promise settled, and a failed attempt's agent is killed. */
  predicate AttemptOk(a: Attempt) {
    && (!a.listening ==> !a.apiUrl.Pending?)
    && (!a.listening && a.apiUrl.Rejected? ==> a.killed)
  }

  /** A wait targets a killed agent and completes only once that agent exited. */
  predicate WaitOk(attempts: seq<Attempt>, w: KillWait) {
    w.target < |attempts| && attempts[w.target].killed && (w.done ==> attempts[w.target].exited)
  }

  /**
   * `processPromise` is the promise of the newest attempt, whose agent has
   * not exited; `activeProcess` is an agent whose attempt succeeded.
   */
  predicate Consistent(st: State) {
    && (st.processPromise.Some? ==>
          && st.processPromise.value + 1 == |st.attempts|
          && !st.attempts[st.processPromise.value].exited)
    && (st.activeProcess.Some? ==>
          && st.activeProcess.value < |st.attempts|
          && st.attempts[st.activeProcess.value].apiUrl.Resolved?
          && !st.attempts[st.activeProcess.value].listening)
    && (forall k :: 0 <= k < |st.attempts| ==> AttemptOk(st.attempts[k]))
    && (forall k :: 0 <= k < |st.waits| ==> WaitOk(st.attempts, st.waits[k]))
  }

  // ---------------------------------------------------------------------
  // Events
  // ---------------------------------------------------------------------

  datatype Event =
    | GetProcessCall(opts: Options)
    | StdoutData(id: nat, chunk: string)
    | StderrData(id: nat, chunk: string)
    | AttemptSettled(id: nat)
    | AgentExit(id: nat)
    | KillProcessCall

  /** The events that can occur in `st`: they come from spawned agents, settle once and exit once. */
  predicate Enabled(st: State, ev: Event) {
    match ev
    case GetProcessCall(_) => true
    case StdoutData(id, _) => id < |st.attempts|
    case StderrData(id, _) => id < |st.attempts|
    case AttemptSettled(id) => id < |st.attempts| && st.attempts[id].listening && !st.attempts[id].apiUrl.Pending?
    case AgentExit(id) => id < |st.attempts| && !st.attempts[id].exited
    case KillProcessCall => st.activeProcess.Some? ==> st.activeProcess.value < |st.attempts|
  }

  /**
   * The state after event `ev`. Attempts are never dropped; only a
   * `getProcess` call installs a promise, and only a successful settling
   * installs an active agent.
   */
  function Next(st: State, ev: Event, defaultDir: string): (r: State)
    requires Enabled(st, ev)
    ensures |st.attempts| <= |r.attempts|
    ensures st.processPromise.None? && r.processPromise.Some? ==> ev.GetProcessCall?
    ensures r.activeProcess.Some? && r.activeProcess != st.activeProcess ==>
      ev.AttemptSettled? && st.attempts[ev.id].apiUrl.Resolved?
  {
    match ev
    case GetProcessCall(opts) => GetProcessStep(st, opts, defaultDir).0
    case StdoutData(id, chunk) => StdoutStep(st, id, chunk)
    case StderrData(id, chunk) => StderrStep(st, id, chunk)
    case AttemptSettled(id) => SettledStep(st, id)
    case AgentExit(id) => ExitStep(st, id)
    case KillProcessCall => KillProcessStep(st).0
  }

  lemma {:induction false} InitialConsistent()
    ensures Consistent(Initial)
  {
  }

  lemma {:induction false} OnStdoutOk(a: Attempt, chunk: string)
    requires AttemptOk(a)
    ensures AttemptOk(OnStdout(a, chunk))
  {
  }

  lemma {:induction false} OnStderrOk(a: Attempt, chunk: string)
    requires AttemptOk(a)
    ensures AttemptOk(OnStderr(a, chunk))
  {
  }

  lemma {:induction false} GetProcessConsistent(st: State, opts: Options, defaultDir: string)
    requires Consistent(st)
    ensures Consistent(GetProcessStep(st, opts, defaultDir).0)
  {
    var r := GetProcessStep(st, opts, defaultDir).0;
    assert forall k :: 0 <= k < |st.attempts| ==> r.attempts[k] == st.attempts[k];
  }

  lemma {:induction false} StdoutConsistent(st: State, id: nat, chunk: string)
    requires Consistent(st) && id < |st.attempts|
    ensures Consistent(StdoutStep(st, id, chunk))
  {
    OnStdoutOk(st.attempts[id], chunk);
  }

  lemma {:induction false} StderrConsistent(st: State, id: nat, chunk: string)
    requires Consistent(st) && id < |st.attempts|
    ensures Consistent(StderrStep(st, id, chunk))
  {
    OnStderrOk(st.attempts[id], chunk);
  }

  lemma {:induction false} SettledConsistent(st: State, id: nat)
    requires Consistent(st)
    requires id < |st.attempts| && st.attempts[id].listening && !st.attempts[id].apiUrl.Pending?
    ensures Consistent(SettledStep(st, id))
  {
  }

  lemma {:induction false} ExitConsistent(st: State, id: nat)
    requires Consistent(st) && id < |st.attempts| && !st.attempts[id].exited
    ensures Consistent(ExitStep(st, id))
  {
    var r := ExitStep(st, id);
    forall k | 0 <= k < |r.waits|
      ensures WaitOk(r.attempts, r.waits[k])
    {
      assert WaitOk(st.attempts, st.waits[k]);
    }
  }

  lemma {:induction false} KillProcessConsistent(st: State)
    requires Consistent(st)
    ensures Consistent(KillProcessStep(st).0)
  {
    var r := KillProcessStep(st).0;
    forall k | 0 <= k < |r.waits|
      ensures WaitOk(r.attempts, r.waits[k])
    {
      if k < |st.waits| {
        assert WaitOk(st.attempts, st.waits[k]);
      }
    }
  }

  /** Every event keeps the supervisor consistent. */
  lemma {:induction false} NextConsistent(st: State, ev: Event, defaultDir: string)
    requires Consistent(st) && Enabled(st, ev)
    ensures Consistent(Next(st, ev, defaultDir))
  {
    match ev
    case GetProcessCall(opts) => GetProcessConsistent(st, opts, defaultDir);
    case StdoutData(id, chunk) => StdoutConsistent(st, id, chunk);
    case StderrData(id, chunk) => StderrConsistent(st, id, chunk);
    case AttemptSettled(id) => SettledConsistent(st, id);
    case AgentExit(id) => ExitConsistent(st, id);
    case KillProcessCall => KillProcessConsistent(st);
  }

  /** A new agent is spawned exactly by a `getProcess` call that finds no promise, and earlier attempts keep their command lines. */
  lemma {:induction false} SpawnsOnlyWithoutPromise(st: State, ev: Event, defaultDir: string)
    requires Enabled(st, ev)
    ensures |Next(st, ev, defaultDir).attempts| == |st.attempts| + (if ev.GetProcessCall? && st.processPromise.None? then 1 else 0)
    ensures forall k :: 0 <= k < |st.attempts| ==>
      Next(st, ev, defaultDir).attempts[k].argv == st.attempts[k].argv && Next(st, ev, defaultDir).attempts[k].cwd == st.attempts[k].cwd
  {
  }

  /** `processPromise` is dropped exactly by an exit or by the settling of a failed attempt. */
  lemma {:induction false} PromiseResetCause(st: State, ev: Event, defaultDir: string)
    requires Enabled(st, ev) && st.processPromise.Some?
    ensures Next(st, ev, defaultDir).processPromise.None? <==>
      ev.AgentExit? || (ev.AttemptSettled? && st.attempts[ev.id].apiUrl.Rejected?)
  {
  }

  /**
   * The wait `killProcess` returns completes with the exit of the agent it
   * targets, and no other event completes it.
   */
  lemma {:induction false} KillWaitsForExit(st: State, ev: Event, defaultDir: string)
    requires Consistent(st) && st.activeProcess.Some?
    requires Enabled(KillProcessStep(st).0, ev)
    ensures KillProcessStep(st).1 == Some(|st.waits|)
    ensures !KillProcessStep(st).0.waits[|st.waits|].done
    ensures Next(KillProcessStep(st).0, ev, defaultDir).waits[|st.waits|].done <==> ev == AgentExit(st.activeProcess.value)
  {
    var st' := KillProcessStep(st).0;
    var w := |st.waits|;
    match ev
    case GetProcessCall(opts) =>
    case StdoutData(id, chunk) =>
    case StderrData(id, chunk) =>
    case AttemptSettled(id) =>
    case AgentExit(id) =>
      assert ExitStep(st', id).waits[w] == st'.waits[w].(done := st'.waits[w].done || st'.waits[w].target == id);
    case KillProcessCall =>
  }

  /**
   * An exit of an older agent clears the promise of the newest attempt, so
   * the next `getProcess` spawns another agent while that attempt's agent,
   * left as it was, has not exited: two agents are running at once.
   */
  lemma {:induction false} StaleExitRespawns(st: State, id: nat, opts: Options, defaultDir: string)
    requires Consistent(st) && st.processPromise.Some? && id < st.processPromise.value
    requires !st.attempts[id].exited
    ensures
      var p := st.processPromise.value;
      var st' := GetProcessStep(ExitStep(st, id), opts, defaultDir);
      && st'.1 == p + 1
      && |st'.0.attempts| == p + 2
      && st'.0.attempts[p] == st.attempts[p]
      && !st'.0.attempts[p].exited && !st'.0.attempts[p + 1].exited
  {
  }

  /** The state and the awaited attempts after `getProcess` calls with `optss`, in order. */
  function GetAll(st: State, optss: seq<Options>, defaultDir: string): (r: (State, seq<nat>))
    ensures |r.1| == |optss|
    decreases |optss|
  {
    if optss == [] then (st, [])
    else
      var (st', id) := GetProcessStep(st, optss[0], defaultDir);
      var (st'', ids) := GetAll(st', optss[1..], defaultDir);
      (st'', [id] + ids)
  }

  /** Once a promise is memoised, `getProcess` calls share it and spawn nothing. */
  lemma {:induction false} MemoisedCallsShare(st: State, optss: seq<Options>, defaultDir: string)
    requires st.processPromise.Some?
    ensures GetAll(st, optss, defaultDir).0 == st
    ensures GetAll(st, optss, defaultDir).1 == seq(|optss|, _ => st.processPromise.value)
    decreases |optss|
  {
    if optss != [] {
      MemoisedCallsShare(st, optss[1..], defaultDir);
    }
  }

  /** Concurrent `getProcess` calls spawn the agent only once and all await the same attempt. */
  lemma {:induction false} ConcurrentCallsSpawnOnce(st: State, optss: seq<Options>, defaultDir: string)
    requires optss != []
    ensures |GetAll(st, optss, defaultDir).0.attempts| == |st.attempts| + (if st.processPromise.None? then 1 else 0)
    ensures forall k :: 0 <= k < |optss| ==>
      GetAll(st, optss, defaultDir).1[k] == (if st.processPromise.Some? then st.processPromise.value else |st.attempts|)
  {
    var (st', id) := GetProcessStep(st, optss[0], defaultDir);
    MemoisedCallsShare(st', optss[1..], defaultDir);
  }

  // ---------------------------------------------------------------------
  // The supervisor object
  // ---------------------------------------------------------------------

  class Supervisor {
    /** The directory that holds the agent binary. */
    const defaultDir: string
    var processPromise: Option<nat>
    var activeProcess: Option<nat>
    var attempts: seq<Attempt>
    var waits: seq<KillWait>

    function Snapshot(): State
      reads this
    {
      State(processPromise, activeProcess, attempts, waits)
    }

    ghost predicate Valid()
      reads this
    {
      Consistent(Snapshot())
    }

    /** The module's state at load time; the binary lives in `bin` under the module directory. */
    constructor(moduleDir: string)
      ensures Snapshot() == Initial && Valid()
      ensures defaultDir == moduleDir + "/bin"
    {
      defaultDir := moduleDir + "/bin";
      processPromise := None;
      activeProcess := None;
      attempts := [];
      waits := [];
    }

    method GetProcess(opts: Options) returns (id: nat)
      requires Valid()
      modifies this
      ensures Valid()
      ensures (Snapshot(), id) == GetProcessStep(old(Snapshot()), opts, defaultDir)
    {
      if processPromise.Some? {
        id := processPromise.value;
        return;
      }
      var argv, cwd := PrepareStart(opts, defaultDir);
      id := |attempts|;
      attempts := attempts + [Attempt(argv, cwd, Pending, true, false, false)];
      processPromise := Some(id);
      GetProcessConsistent(old(Snapshot()), opts, defaultDir);
    }

    method OnStdoutData(id: nat, chunk: string)
      requires Valid() && id < |attempts|
      modifies this
      ensures Valid()
      ensures Snapshot() == StdoutStep(old(Snapshot()), id, chunk)
    {
      var a := attempts[id];
      if a.listening {
        var ev := ClassifyStdout(chunk);
        if ev.Ready? {
          a := a.(apiUrl := Resolve(a.apiUrl, UrlScheme + ev.addr));
        } else if ev.InUse? {
          a := a.(apiUrl := Reject(a.apiUrl, ev.message));
        }
      }
      assert a == OnStdout(attempts[id], chunk);
      attempts := attempts[id := a];
      StdoutConsistent(old(Snapshot()), id, chunk);
    }

    method OnStderrData(id: nat, chunk: string)
      requires Valid() && id < |attempts|
      modifies this
      ensures Valid()
      ensures Snapshot() == StderrStep(old(Snapshot()), id, chunk)
    {
      var a := attempts[id];
      if a.listening {
        var msg := Truncate(chunk);
        a := a.(apiUrl := Reject(a.apiUrl, msg));
      }
      attempts := attempts[id := a];
      StderrConsistent(old(Snapshot()), id, chunk);
    }

    /** Returns what the `getProcess` calls awaiting attempt `id` receive. */
    method OnSettled(id: nat) returns (outcome: Settle<string>)
      requires Valid() && id < |attempts| && attempts[id].listening && !attempts[id].apiUrl.Pending?
      modifies this
      ensures Valid()
      ensures Snapshot() == SettledStep(old(Snapshot()), id)
      ensures outcome == old(attempts[id].apiUrl)
    {
      var a := attempts[id];
      outcome := a.apiUrl;
      if a.apiUrl.Resolved? {
        activeProcess := Some(id);
      } else {
        a := a.(killed := true);
        processPromise := None;
      }
      attempts := attempts[id := a.(listening := false)];
      SettledConsistent(old(Snapshot()), id);
    }

    method OnExit(id: nat)
      requires Valid() && id < |attempts| && !attempts[id].exited
      modifies this
      ensures Valid()
      ensures Snapshot() == ExitStep(old(Snapshot()), id)
    {
      attempts := attempts[id := attempts[id].(exited := true)];
      waits := ReleaseWaits(waits, id);
      processPromise := None;
      activeProcess := None;
      ExitConsistent(old(Snapshot()), id);
    }

    /** Returns the index of the new wait in `waits`, or `None` (JavaScript's `undefined`). */
    method KillProcess() returns (wait: Option<nat>)
      requires Valid()
      modifies this
      ensures Valid()
      ensures (Snapshot(), wait) == KillProcessStep(old(Snapshot()))
    {
      if activeProcess.None? {
        return None;
      }
      var t := activeProcess.value;
      wait := Some(|waits|);
      waits := waits + [KillWait(t, false)];
      attempts := attempts[t := attempts[t].(killed := true)];
      KillProcessConsistent(old(Snapshot()));
    }
  }
}
