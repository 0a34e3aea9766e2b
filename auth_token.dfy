/**
 * `setAuthtoken`: the agent binary is run with the `authtoken` command; the
 * first chunk on its stdout means the token was saved, the first chunk on
 * its stderr means it was not ("cant set authtoken"), and the agent is
 * killed once the outcome is known, on either path.
 */
module AuthToken {
  import opened Wrappers
  import opened Promises
  import opened Arguments

  /** The message of the error `setAuthtoken` rejects with. */
  const AuthError: string := "cant set authtoken"

  datatype Stream = StdoutStream | StderrStream

  /** The call a stream's one-shot `data` listener makes on the promise. */
  function StreamCall(s: Stream): SettleCall<()> {
    match s
    case StdoutStream => CallResolve(())
    case StderrStream => CallReject(AuthError)
  }

  /** The promise, whether each one-shot listener is still attached, and whether `kill()` was sent. */
  datatype Run = Run(outcome: Settle<()>, stdoutOnce: bool, stderrOnce: bool, killed: bool)

  /** Just after the spawn: both listeners attached, nothing settled. */
  const Started: Run := Run(Pending, true, true, false)

  /** A chunk on stream `s`: its listener, if still attached, fires once and detaches. */
  function OnData(r: Run, s: Stream): (r': Run)
    ensures r'.killed == r.killed
    ensures !r.outcome.Pending? ==> r'.outcome == r.outcome
    ensures s.StdoutStream? ==> !r'.stdoutOnce && r'.stderrOnce == r.stderrOnce
    ensures s.StderrStream? ==> !r'.stderrOnce && r'.stdoutOnce == r.stdoutOnce
  {
    match s
    case StdoutStream =>
      if r.stdoutOnce then r.(outcome := Resolve(r.outcome, ()), stdoutOnce := false) else r
    case StderrStream =>
      if r.stderrOnce then r.(outcome := Reject(r.outcome, AuthError), stderrOnce := false) else r
  }

  /** The run after chunks on the streams `ss`, in order. */
  function Feed(r: Run, ss: seq<Stream>): (r': Run)
    ensures r'.killed == r.killed
    decreases |ss|
  {
    if ss == [] then r else Feed(OnData(r, ss[0]), ss[1..])
  }

  /** The `finally` after `await`: the agent is killed, whatever the outcome. */
  function Finish(r: Run): (r': Run)
    requires !r.outcome.Pending?
    ensures r'.killed && r'.outcome == r.outcome
  {
    r.(killed := true)
  }

  /** A settled outcome survives every further chunk. */
  lemma {:induction false} FeedKeepsOutcome(r: Run, ss: seq<Stream>)
    requires !r.outcome.Pending?
    ensures Feed(r, ss).outcome == r.outcome
    ensures Feed(r, ss).killed == r.killed
    decreases |ss|
  {
    if ss != [] {
      FeedKeepsOutcome(OnData(r, ss[0]), ss[1..]);
    }
  }

  /** Without chunks nothing is decided; otherwise the first chunk's stream decides. */
  lemma {:induction false} FirstChunkDecides(ss: seq<Stream>)
    ensures ss == [] ==> Feed(Started, ss).outcome == Pending
    ensures ss != [] ==> Feed(Started, ss).outcome == Outcome(StreamCall(ss[0]))
    ensures !Feed(Started, ss).killed
  {
    if ss != [] {
      FeedKeepsOutcome(OnData(Started, ss[0]), ss[1..]);
    }
  }

  /** After the first chunk, `setAuthtoken` resolves on stdout, rejects with AuthError on stderr, and kills the agent. */
  lemma {:induction false} AuthOutcome(ss: seq<Stream>)
    requires ss != []
    ensures !Feed(Started, ss).outcome.Pending?
    ensures Finish(Feed(Started, ss)).killed
    ensures ss[0].StdoutStream? ==> Finish(Feed(Started, ss)).outcome == Resolved(())
    ensures ss[0].StderrStream? ==> Finish(Feed(Started, ss)).outcome == Rejected(AuthError)
  {
    FirstChunkDecides(ss);
  }

  /** One `setAuthtoken` call: the spawned agent and the promise it awaits. */
  class AuthRunner {
    const argv: seq<Option<string>>
    const cwd: string
    var outcome: Settle<()>
    var stdoutOnce: bool
    var stderrOnce: bool
    var killed: bool

    function Snapshot(): Run
      reads this
    {
      Run(outcome, stdoutOnce, stderrOnce, killed)
    }

    /** Chooses the options and the token, builds the command line and the directory, and attaches both listeners. */
    constructor(arg: TokenArg, defaultDir: string)
      ensures argv == AuthtokenArgv(arg)
      ensures cwd == WorkDir(OptionsOf(arg), defaultDir)
      ensures Snapshot() == Started
    {
      var a, d := PrepareAuthtoken(arg, defaultDir);
      argv := a;
      cwd := d;
      outcome := Pending;
      stdoutOnce := true;
      stderrOnce := true;
      killed := false;
    }

    method OnStdoutData()
      modifies this
      ensures Snapshot() == OnData(old(Snapshot()), StdoutStream)
    {
      if stdoutOnce {
        stdoutOnce := false;
        outcome := Resolve(outcome, ());
      }
    }

    method OnStderrData()
      modifies this
      ensures Snapshot() == OnData(old(Snapshot()), StderrStream)
    {
      if stderrOnce {
        stderrOnce := false;
        outcome := Reject(outcome, AuthError);
      }
    }

    /** Returns what the caller of `setAuthtoken` receives, after killing the agent. */
    method Settled() returns (result: Settle<()>)
      requires !outcome.Pending?
      modifies this
      ensures Snapshot() == Finish(old(Snapshot()))
      ensures result == outcome
    {
      result := outcome;
      killed := true;
    }
  }
}
