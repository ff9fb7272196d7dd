/**
 The main container of every generated pod runs a Bash script as PID 1.  This module models that
 script as a transition system: the script is data (CommandAt), and Step interprets it
 with the shell semantics of section 2.11 (Signals and Error Handling) of the Shell Command Language
 volume of IEEE Std 1003.1.  Signals and the exit of the background server interleave freely with
 the commands.
 */
module ShellSignals {
  import opened Options

  // A shell variable.
  datatype Variable = Unset | Text(text: string)

  predicate IsNonempty(v: Variable) {
    v.Text? && v.text != ""
  }

  type Pid = s: string | s != "" witness "1"

  // What the run depends on: whether `set -u` is in force, the process id that `$!` will hold, and
  // what the container's environment happened to define for the two variables of the script.
  datatype Setting = Setting(nounset: bool, child: Pid, inheritedPid: Variable, inheritedKill: Variable)

  // The commands of the script, up to what they do to signals, variables and the background server.
  datatype Command =
    | Foreground              // mkdir, cp and the Kerberos setup
    | UnsetChildPid
    | UnsetKillNeeded
    | InstallTrap             // trap 'handle_term_signal' TERM
    | StartServer             // bin/hbase ... start &
    | SetErrexit(on: bool)    // set -e, set +e
    | StoreChildPid           // term_child_pid=$1, called with $!
    | BranchOnKillNeeded      // if [[ -v term_kill_needed ]]
    | KillChildPid            // kill -TERM "${term_child_pid}"
    | WaitForChildPid         // wait ${term_child_pid}
    | ResetTrap               // trap - TERM

  // The control points of the main program, in program order; END is the end of the script.
  const SETUP := 0
  const CLEAR_PID := 1
  const CLEAR_KILL_NEEDED := 2
  const TRAP_ON := 3
  const LAUNCH := 4
  const ERREXIT_OFF := 5
  const STORE_PID := 6
  const CHECK_DEFERRED := 7
  const KILL_DEFERRED := 8
  const FIRST_WAIT := 9
  const TRAP_OFF := 10
  const SECOND_WAIT := 11
  const ERREXIT_ON := 12
  const END := 13

  type Point = p: int | SETUP <= p <= END witness SETUP

  // The control points of handle_term_signal.
  datatype HandlerPoint = TestPid | ForwardTerm | DeferTerm

  function CommandAt(p: Point): Command
    requires p != END
  {
    if p == SETUP then Foreground
    else if p == CLEAR_PID then UnsetChildPid
    else if p == CLEAR_KILL_NEEDED then UnsetKillNeeded
    else if p == TRAP_ON then InstallTrap
    else if p == LAUNCH then StartServer
    else if p == ERREXIT_OFF then SetErrexit(false)
    else if p == STORE_PID then StoreChildPid
    else if p == CHECK_DEFERRED then BranchOnKillNeeded
    else if p == KILL_DEFERRED then KillChildPid
    else if p == FIRST_WAIT then WaitForChildPid
    else if p == TRAP_OFF then ResetTrap
    else if p == SECOND_WAIT then WaitForChildPid
    else SetErrexit(true)
  }

  // Where the one `if` of the main program goes on when its condition is false.
  function AfterBranch(p: Point): Point
    requires p != END
  {
    if p == CHECK_DEFERRED then FIRST_WAIT else p + 1
  }

  datatype Child = NotStarted | Running | Exited

  datatype Cause = CommandFailed | UnboundVariable

  datatype Mode = Live | Aborted(why: Cause)

  // What has happened so far, oldest first.
  datatype Entry =
    | Ignored                              // TERM arrived with no trap installed; PID 1 ignores it
    | Caught                               // TERM arrived with the trap installed
    | Handled(early: bool)                 // a trap run began; early: before the child's pid was stored
    | Deferred                             // the handler recorded that a kill is needed
    | Killed(target: string, hit: bool)    // kill -TERM ran; hit: the target was the running server
    | ChildExited

  type Log = seq<Entry>

  datatype State = State(
    at: Point,
    waiting: bool,                // inside the wait command at `at`
    handlers: seq<HandlerPoint>,  // trap runs in progress, innermost first
    mode: Mode,
    childPid: Variable,
    killNeeded: Variable,
    trapped: bool,                // the TERM trap is installed
    errexit: bool,
    pending: bool,                // a caught TERM whose trap has not run yet
    child: Child,
    log: Log)

  function Start(c: Setting): State {
    State(SETUP, false, [], Live, c.inheritedPid, c.inheritedKill, false, true, false, NotStarted, [])
  }

  predicate Halted(s: State) {
    s.mode.Aborted? || s.at == END
  }

  // What may happen next.  `ok` is the outcome of a command whose outcome is not fixed.
  datatype Event =
    | Term                   // a TERM signal arrives
    | ChildExit              // the background server exits
    | TrapRun                // the shell begins the trap action for the pending TERM
    | HandlerStep(ok: bool)
    | MainStep(ok: bool)
    | WaitReturn(ok: bool)   // wait ends because there is nothing left to wait for
    | WaitCut                // wait ends early because a trapped TERM arrived

  function Note(s: State, e: Entry): State {
    s.(log := s.log + [e])
  }

  function Abort(s: State, why: Cause): State {
    s.(mode := Aborted(why))
  }

  // A main-program command ended with the given outcome: with errexit on, a failure ends the shell.
  function Finish(s: State, ok: bool): State
    requires s.at != END
  {
    if ok || !s.errexit then s.(at := s.at + 1) else Abort(s, CommandFailed)
  }

  function Pop(s: State, ok: bool): State
    requires s.handlers != []
  {
    if ok || !s.errexit then s.(handlers := s.handlers[1..]) else Abort(s, CommandFailed)
  }

  predicate Hits(c: Setting, s: State) {
    s.child.Running? && s.childPid == Text(c.child)
  }

  // `kill -TERM "${term_child_pid}"`, before its outcome is acted on.
  function LogKill(c: Setting, s: State): State {
    Note(s, Killed(if s.childPid.Text? then s.childPid.text else "", Hits(c, s)))
  }

  predicate ReadsUnbound(c: Setting, s: State) {
    c.nounset && s.childPid.Unset?
  }

  // `wait ${term_child_pid}` blocks while the server runs, if it names the server or names nothing.
  predicate Blocked(c: Setting, s: State) {
    s.child.Running? && (!IsNonempty(s.childPid) || s.childPid.text == c.child)
  }

  function RunHandler(c: Setting, s: State, ok: bool): Option<State>
    requires s.handlers != []
  {
    match s.handlers[0]
    case TestPid =>
      if !ok then None
      else if ReadsUnbound(c, s) then Some(Abort(s, UnboundVariable))
      else Some(s.(handlers := [if IsNonempty(s.childPid) then ForwardTerm else DeferTerm] + s.handlers[1..]))
    case ForwardTerm =>
      if ReadsUnbound(c, s) then Some(Abort(s, UnboundVariable))
      else if Hits(c, s) && !ok then None
      else Some(Pop(LogKill(c, s), ok))
    case DeferTerm =>
      if !ok then None else Some(Pop(Note(s, Deferred).(killNeeded := Text("yes")), true))
  }

  // What the commands that cannot fail and do not branch or block change.
  function Effect(c: Setting, s: State, command: Command): State {
    match command
    case UnsetChildPid => s.(childPid := Unset)
    case UnsetKillNeeded => s.(killNeeded := Unset)
    case InstallTrap => s.(trapped := true)
    case StartServer => s.(child := Running)
    case SetErrexit(on) => s.(errexit := on)
    case StoreChildPid => s.(childPid := Text(c.child))
    case ResetTrap => s.(trapped := false)
    case _ => s
  }

  function RunMain(c: Setting, s: State, ok: bool): Option<State>
    requires s.at != END
  {
    var command := CommandAt(s.at);
    if command.Foreground? then Some(Finish(s, ok))
    else if (command.KillChildPid? || command.WaitForChildPid?) && ReadsUnbound(c, s) then
      Some(Abort(s, UnboundVariable))
    else if command.KillChildPid? then
      if Hits(c, s) && !ok then None else Some(Finish(LogKill(c, s), ok))
    else if !ok then None
    else if command.WaitForChildPid? then Some(s.(waiting := true))
    else if command.BranchOnKillNeeded? then
      Some(s.(at := if s.killNeeded.Text? then s.at + 1 else AfterBranch(s.at)))
    else Some(Finish(Effect(c, s, command), true))
  }

  /**
   One step, or None if the event cannot happen in this state.  The trap action runs at a command
   boundary, so the main program does not go on while a TERM is pending or a handler is running.
   Whether the trap also runs between two commands of the handler itself is left open.
   */
  function Step(c: Setting, s: State, e: Event): Option<State> {
    if Halted(s) then None
    else
      match e
      case Term =>
        Some(if s.trapped then Note(s, Caught).(pending := true) else Note(s, Ignored))
      case ChildExit =>
        if s.child.Running? then Some(Note(s, ChildExited).(child := Exited)) else None
      case TrapRun =>
        if s.pending && !s.waiting
        then Some(Note(s, Handled(!IsNonempty(s.childPid))).(pending := false, handlers := [TestPid] + s.handlers))
        else None
      case HandlerStep(ok) =>
        if s.handlers != [] then RunHandler(c, s, ok) else None
      case MainStep(ok) =>
        if s.pending || s.handlers != [] || s.waiting then None else RunMain(c, s, ok)
      case WaitReturn(ok) =>
        if s.waiting && !Blocked(c, s) then Some(Finish(s.(waiting := false), ok)) else None
      case WaitCut =>
        if s.waiting && s.pending then Some(Finish(s.(waiting := false), false)) else None
  }

  // The events of a run, and the states it passes through, from the start on.
  ghost predicate IsTrail(c: Setting, run: seq<Event>, trail: seq<State>) {
    && |trail| == |run| + 1
    && trail[0] == Start(c)
    && forall i {:trigger run[i]} :: 0 <= i < |run| ==> Step(c, trail[i], run[i]) == Some(trail[i + 1])
  }

  /** The run can happen, from the start, and ends in the state s. */
  ghost predicate Leads(c: Setting, run: seq<Event>, s: State) {
    exists trail :: IsTrail(c, run, trail) && trail[|run|] == s
  }
}
