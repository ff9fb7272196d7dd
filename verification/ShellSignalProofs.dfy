/** Safety and progress of the generated script, over every interleaving of signals and child exit. */
module ShellSignalProofs {
  import opened Options
  import opened ShellSignals

  // The trap is installed: a TERM that arrives here is caught.
  predicate Protected(p: Point) {
    LAUNCH <= p <= TRAP_OFF
  }

  // `term_child_pid` holds the server's process id.
  predicate PidKnown(p: Point) {
    CHECK_DEFERRED <= p
  }

  // ----- the log -----

  // Some TERM was caught or handled and no kill has run since.
  predicate Unanswered(log: Log) {
    log != [] &&
    var last := log[|log| - 1];
    !last.Killed? && (last.Caught? || last.Handled? || Unanswered(log[..|log| - 1]))
  }

  datatype Tally = Tally(handled: nat, deferred: nat, killed: nat)

  // How many trap runs began, how many of them deferred, and how many kills ran.
  function TallyOf(log: Log): Tally {
    if log == [] then Tally(0, 0, 0)
    else
      var t := TallyOf(log[..|log| - 1]);
      match log[|log| - 1]
      case Handled(_) => t.(handled := t.handled + 1)
      case Deferred => t.(deferred := t.deferred + 1)
      case Killed(_, _) => t.(killed := t.killed + 1)
      case _ => t
  }

  lemma LogGrows(log: Log, e: Entry)
    ensures Unanswered(log + [e]) <==> !e.Killed? && (e.Caught? || e.Handled? || Unanswered(log))
    ensures TallyOf(log + [e]) ==
            var t := TallyOf(log);
            match e
            case Handled(_) => t.(handled := t.handled + 1)
            case Deferred => t.(deferred := t.deferred + 1)
            case Killed(_, _) => t.(killed := t.killed + 1)
            case _ => t
  {
    assert (log + [e])[..|log|] == log;
  }

  lemma {:induction false} AnsweredMeansKilledLater(log: Log, i: nat)
    requires i < |log| && (log[i].Caught? || log[i].Handled?)
    requires !Unanswered(log)
    ensures exists j :: i < j < |log| && log[j].Killed?
  {
    var n := |log| - 1;
    if !log[n].Killed? {
      AnsweredMeansKilledLater(log[..n], i);
      var j :| i < j < n && log[..n][j].Killed?;
      assert log[j].Killed?;
    }
  }

  predicate SomeHandled(log: Log) {
    Handled(true) in log || Handled(false) in log
  }

  // ----- the invariant -----

  ghost predicate ControlInv(c: Setting, s: State) {
    && (s.waiting ==> s.handlers == [] && (s.at == FIRST_WAIT || s.at == SECOND_WAIT))
    && (s.trapped <==> Protected(s.at))
    && (s.pending || s.handlers != [] ==> s.trapped)
    && (s.errexit <==> s.at <= ERREXIT_OFF || s.at == END)
    && (s.mode == Aborted(CommandFailed) ==> s.at == SETUP)
    && (s.mode == Aborted(UnboundVariable) ==> c.nounset && Protected(s.at) && !PidKnown(s.at))
  }

  ghost predicate DataInv(c: Setting, s: State) {
    && (CLEAR_KILL_NEEDED <= s.at <= STORE_PID ==> s.childPid == Unset)
    && (PidKnown(s.at) ==> s.childPid == Text(c.child))
    && (TRAP_ON <= s.at ==> s.killNeeded == Unset || (s.killNeeded == Text("yes") && !c.nounset))
    && (s.at == KILL_DEFERRED ==> s.killNeeded == Text("yes"))
    && (s.child == NotStarted <==> s.at <= LAUNCH)
    && (ERREXIT_ON <= s.at ==> s.child == Exited)
    && (ForwardTerm in s.handlers ==> PidKnown(s.at))
    && (DeferTerm in s.handlers ==> !PidKnown(s.at) && !c.nounset)
  }

  ghost predicate LogInv(c: Setting, s: State) {
    && (ChildExited in s.log <==> s.child == Exited)
    && (c.nounset ==> Deferred !in s.log)
    && (s.at <= TRAP_ON ==> Deferred !in s.log && Handled(true) !in s.log)
    && (s.handlers != [] || Deferred in s.log ==> SomeHandled(s.log))
    && ((exists e :: e in s.log && e.Killed?) ==> PidKnown(s.at))
    && (TRAP_ON <= s.at ==> (Deferred in s.log <==> s.killNeeded.Text?))
    && (s.mode.Live? && s.handlers != [] && !PidKnown(s.at) ==> Handled(true) in s.log)
    && (s.mode == Aborted(UnboundVariable) ==> Handled(true) in s.log)
    && (c.nounset && Handled(true) in s.log ==>
          s.mode == Aborted(UnboundVariable) || (s.handlers != [] && !PidKnown(s.at)))
  }

  ghost predicate KillInv(c: Setting, log: Log) {
    forall j :: 0 <= j < |log| && log[j].Killed? ==>
      log[j].target == c.child && (log[j].hit || ChildExited in log[..j]) && SomeHandled(log[..j])
  }

  // Every TERM that was caught has been answered or is still on its way to an answer.
  ghost predicate AnswerInv(s: State) {
    && (s.at <= TRAP_ON ==> !Unanswered(s.log))
    && (s.mode.Live? && Unanswered(s.log) ==>
          s.pending || s.handlers != [] || (s.killNeeded.Text? && s.at <= KILL_DEFERRED))
  }

  // Trap runs, deferrals and kills balance.
  ghost predicate BalanceInv(s: State) {
    var t := TallyOf(s.log);
    && (s.at <= TRAP_ON ==> t == Tally(0, 0, 0))
    && (s.mode.Live? ==>
          t.killed + t.deferred + |s.handlers| ==
          t.handled + if KILL_DEFERRED < s.at && Deferred in s.log then 1 else 0)
  }

  ghost predicate Inv(c: Setting, s: State) {
    ControlInv(c, s) && DataInv(c, s) && LogInv(c, s) && KillInv(c, s.log) && AnswerInv(s) && BalanceInv(s)
  }

  lemma KillInvGrows(c: Setting, log: Log, e: Entry)
    requires KillInv(c, log)
    requires e.Killed? ==> e.target == c.child && (e.hit || ChildExited in log) && SomeHandled(log)
    ensures KillInv(c, log + [e])
  {
    forall j | 0 <= j < |log + [e]| && (log + [e])[j].Killed?
      ensures (log + [e])[j].target == c.child && SomeHandled((log + [e])[..j])
      ensures (log + [e])[j].hit || ChildExited in (log + [e])[..j]
    {
      assert (log + [e])[..j] == log[..j];
      if j == |log| { assert log[..j] == log; }
    }
  }

  // What one main-program step does to the log and to what the log invariants depend on.
  ghost predicate MainShape(c: Setting, s: State, t: State) {
    && s.handlers == t.handlers == [] && !s.pending && !t.pending
    && s.mode.Live? && s.at <= t.at && (t.at <= KILL_DEFERRED || CHECK_DEFERRED <= s.at)
    && (s.at == CHECK_DEFERRED && t.at == FIRST_WAIT ==> !s.killNeeded.Text?)
    && (s.at == CHECK_DEFERRED ==> t.at <= FIRST_WAIT)
    && (s.at == KILL_DEFERRED ==> s.killNeeded.Text? && t.at == FIRST_WAIT)
    && (TRAP_ON <= s.at ==> t.killNeeded == s.killNeeded)
    && t.log == if s.at == KILL_DEFERRED then s.log + [Killed(c.child, Hits(c, s))] else s.log
  }

  lemma MainKeepsState(c: Setting, s: State, ok: bool)
    requires ControlInv(c, s) && DataInv(c, s) && !Halted(s)
    requires !s.pending && s.handlers == [] && !s.waiting
    ensures RunMain(c, s, ok).Some? ==>
              && MainShape(c, s, RunMain(c, s, ok).value)
              && ControlInv(c, RunMain(c, s, ok).value)
              && DataInv(c, RunMain(c, s, ok).value)
  {
    var r := RunMain(c, s, ok);
    if s.at <= TRAP_ON {
      assert r.Some? ==> (MainShape(c, s, r.value) && ControlInv(c, r.value) && DataInv(c, r.value));
    } else if s.at <= CHECK_DEFERRED {
      assert r.Some? ==> (MainShape(c, s, r.value) && ControlInv(c, r.value) && DataInv(c, r.value));
    } else if s.at <= FIRST_WAIT {
      assert r.Some? ==> (MainShape(c, s, r.value) && ControlInv(c, r.value) && DataInv(c, r.value));
    }
  }

  lemma MainKeepsLog(c: Setting, s: State, ok: bool)
    requires ControlInv(c, s) && DataInv(c, s) && LogInv(c, s) && !Halted(s)
    requires !s.pending && s.handlers == [] && !s.waiting
    ensures RunMain(c, s, ok).Some? ==> LogInv(c, RunMain(c, s, ok).value)
  {
    var r := RunMain(c, s, ok);
    if s.at <= TRAP_ON {
      assert r.Some? ==> LogInv(c, r.value);
    } else if s.at <= CHECK_DEFERRED {
      assert r.Some? ==> LogInv(c, r.value);
    } else if s.at <= FIRST_WAIT {
      assert r.Some? ==> LogInv(c, r.value);
    }
  }

  lemma ShapeKeepsAccounts(c: Setting, s: State, t: State)
    requires MainShape(c, s, t)
    requires LogInv(c, s) && KillInv(c, s.log) && AnswerInv(s) && BalanceInv(s)
    requires s.child == Exited || Hits(c, s) || s.at != KILL_DEFERRED
    ensures KillInv(c, t.log) && AnswerInv(t) && BalanceInv(t)
  {
    if s.at == KILL_DEFERRED {
      LogGrows(s.log, Killed(c.child, Hits(c, s)));
      KillInvGrows(c, s.log, Killed(c.child, Hits(c, s)));
    }
  }

  lemma MainKeepsInv(c: Setting, s: State, ok: bool)
    requires Inv(c, s) && !Halted(s)
    requires !s.pending && s.handlers == [] && !s.waiting
    ensures RunMain(c, s, ok).Some? ==> Inv(c, RunMain(c, s, ok).value)
  {
    MainKeepsState(c, s, ok);
    MainKeepsLog(c, s, ok);
    var r := RunMain(c, s, ok);
    if r.Some? { ShapeKeepsAccounts(c, s, r.value); }
  }

  // What one command of the handler changes.
  ghost predicate HandlerShape(c: Setting, s: State, t: State)
    requires s.handlers != []
  {
    match s.handlers[0]
    case TestPid =>
      if !PidKnown(s.at) && c.nounset then t == Abort(s, UnboundVariable)
      else t == s.(handlers := [if PidKnown(s.at) then ForwardTerm else DeferTerm] + s.handlers[1..])
    case ForwardTerm =>
      t == Note(s, Killed(c.child, s.child == Running)).(handlers := s.handlers[1..])
    case DeferTerm =>
      t == Note(s, Deferred).(killNeeded := Text("yes"), handlers := s.handlers[1..])
  }

  lemma HandlerTakesShape(c: Setting, s: State, ok: bool)
    requires ControlInv(c, s) && DataInv(c, s) && !Halted(s) && s.handlers != []
    ensures RunHandler(c, s, ok).Some? ==> HandlerShape(c, s, RunHandler(c, s, ok).value)
  {
    assert ForwardTerm == s.handlers[0] ==> PidKnown(s.at);
    assert PidKnown(s.at) ==> s.childPid == Text(c.child);
  }

  lemma HandlerKeepsState(c: Setting, s: State, t: State)
    requires ControlInv(c, s) && DataInv(c, s) && !Halted(s) && s.handlers != [] && HandlerShape(c, s, t)
    ensures ControlInv(c, t) && DataInv(c, t)
  {
    assert forall h :: h in s.handlers[1..] ==> h in s.handlers;
  }

  lemma HandlerKeepsLog(c: Setting, s: State, t: State)
    requires ControlInv(c, s) && DataInv(c, s) && LogInv(c, s) && !Halted(s)
    requires s.handlers != [] && HandlerShape(c, s, t)
    ensures LogInv(c, t)
  {
    match s.handlers[0]
    case TestPid => assert t.log == s.log;
    case ForwardTerm => assert PidKnown(s.at);
    case DeferTerm => assert !PidKnown(s.at) && Handled(true) in s.log;
  }

  lemma HandlerKeepsAccounts(c: Setting, s: State, t: State)
    requires Inv(c, s) && !Halted(s) && s.handlers != [] && HandlerShape(c, s, t)
    ensures KillInv(c, t.log) && AnswerInv(t) && BalanceInv(t)
  {
    match s.handlers[0]
    case TestPid =>
    case ForwardTerm =>
      LogGrows(s.log, Killed(c.child, s.child == Running));
      KillInvGrows(c, s.log, Killed(c.child, s.child == Running));
    case DeferTerm =>
      LogGrows(s.log, Deferred);
      KillInvGrows(c, s.log, Deferred);
  }

  lemma HandlerKeepsInv(c: Setting, s: State, ok: bool)
    requires Inv(c, s) && !Halted(s) && s.handlers != []
    ensures RunHandler(c, s, ok).Some? ==> Inv(c, RunHandler(c, s, ok).value)
  {
    HandlerTakesShape(c, s, ok);
    hide RunHandler, HandlerShape, ControlInv, DataInv, LogInv, KillInv, AnswerInv, BalanceInv;
    if RunHandler(c, s, ok).Some? {
      var t := RunHandler(c, s, ok).value;
      HandlerKeepsState(c, s, t);
      HandlerKeepsLog(c, s, t);
      HandlerKeepsAccounts(c, s, t);
    }
  }

  lemma TermKeepsInv(c: Setting, s: State)
    requires Inv(c, s) && !Halted(s)
    ensures Inv(c, Step(c, s, Term).value)
  {
    var entry := if s.trapped then Caught else Ignored;
    LogGrows(s.log, entry);
    KillInvGrows(c, s.log, entry);
  }

  lemma ChildExitKeepsInv(c: Setting, s: State)
    requires Inv(c, s) && !Halted(s)
    ensures Step(c, s, ChildExit).Some? ==> Inv(c, Step(c, s, ChildExit).value)
  {
    LogGrows(s.log, ChildExited);
    KillInvGrows(c, s.log, ChildExited);
  }

  lemma TrapRunKeepsInv(c: Setting, s: State)
    requires Inv(c, s) && !Halted(s)
    ensures Step(c, s, TrapRun).Some? ==> Inv(c, Step(c, s, TrapRun).value)
  {
    LogGrows(s.log, Handled(!IsNonempty(s.childPid)));
    KillInvGrows(c, s.log, Handled(!IsNonempty(s.childPid)));
  }

  lemma WaitKeepsInv(c: Setting, s: State, e: Event)
    requires Inv(c, s) && !Halted(s)
    requires e.WaitReturn? || e.WaitCut?
    ensures Step(c, s, e).Some? ==> Inv(c, Step(c, s, e).value)
  {
  }

  lemma StepKeepsInv(c: Setting, s: State, e: Event)
    requires Inv(c, s)
    ensures Step(c, s, e).Some? ==> Inv(c, Step(c, s, e).value)
  {
    if !Halted(s) {
      match e
      case HandlerStep(ok) =>
        if s.handlers != [] { HandlerKeepsInv(c, s, ok); }
      case MainStep(ok) =>
        if !s.pending && s.handlers == [] && !s.waiting { MainKeepsInv(c, s, ok); }
      case WaitReturn(_) => WaitKeepsInv(c, s, e);
      case WaitCut => WaitKeepsInv(c, s, e);
      case Term => TermKeepsInv(c, s);
      case ChildExit => ChildExitKeepsInv(c, s);
      case TrapRun => TrapRunKeepsInv(c, s);
    }
  }

  // ----- runs -----

  lemma NoEvent(c: Setting)
    ensures Leads(c, [], Start(c))
  {
    assert IsTrail(c, [], [Start(c)]);
  }

  lemma OnlyStart(c: Setting, s: State)
    requires Leads(c, [], s)
    ensures s == Start(c)
  {
  }

  lemma OneMore(c: Setting, run: seq<Event>, s: State, e: Event, t: State)
    requires Leads(c, run, s) && Step(c, s, e) == Some(t)
    ensures Leads(c, run + [e], t)
  {
    hide Step, Start;
    var trail :| IsTrail(c, run, trail) && trail[|run|] == s;
    var (longer, further) := (run + [e], trail + [t]);
    forall i | 0 <= i < |longer| ensures Step(c, further[i], longer[i]) == Some(further[i + 1]) {
      if i < |run| { assert longer[i] == run[i]; }
    }
    assert IsTrail(c, longer, further);
  }

  lemma OneLess(c: Setting, run: seq<Event>, e: Event, t: State) returns (s: State)
    requires Leads(c, run + [e], t)
    ensures Leads(c, run, s) && Step(c, s, e) == Some(t)
  {
    hide Step, Start;
    var (longer, n) := (run + [e], |run|);
    var trail :| IsTrail(c, longer, trail) && trail[|longer|] == t;
    forall i | 0 <= i < n ensures Step(c, trail[..n + 1][i], run[i]) == Some(trail[..n + 1][i + 1]) {
      assert longer[i] == run[i];
    }
    assert IsTrail(c, run, trail[..n + 1]);
    assert longer[n] == e;
    s := trail[n];
  }

  /** A run ends in one state only: all choice is in the events. */
  lemma {:induction false} RunIsDetermined(c: Setting, run: seq<Event>, s: State, t: State)
    requires Leads(c, run, s) && Leads(c, run, t)
    ensures s == t
  {
    if run == [] {
      OnlyStart(c, s);
      OnlyStart(c, t);
    } else {
      hide Step, Leads;
      var n := |run| - 1;
      assert run == run[..n] + [run[n]];
      var a := OneLess(c, run[..n], run[n], s);
      var b := OneLess(c, run[..n], run[n], t);
      RunIsDetermined(c, run[..n], a, b);
    }
  }

  // ----- the invariant always holds -----

  lemma InvAtStart(c: Setting)
    ensures Inv(c, Start(c))
  {
  }

  /** The invariant holds after every run. */
  lemma {:induction false} InvAlways(c: Setting, run: seq<Event>, s: State)
    requires Leads(c, run, s)
    ensures Inv(c, s)
  {
    hide Step, Leads, Inv;
    if run == [] {
      OnlyStart(c, s);
      InvAtStart(c);
    } else {
      var n := |run| - 1;
      assert run == run[..n] + [run[n]];
      var before := OneLess(c, run[..n], run[n], s);
      InvAlways(c, run[..n], before);
      StepKeepsInv(c, before, run[n]);
    }
  }

  // ----- safety, for every run -----

  // The trap is gone and no caught TERM is left over: the script has done all its forwarding.
  predicate PastForwarding(s: State) {
    s.mode.Live? && KILL_DEFERRED < s.at && !s.pending && s.handlers == []
  }

  /**
   No TERM is lost: once the deferred-kill check is passed and nothing is pending, every TERM that
   was caught, and every trap run, has been followed by a kill of the server and of nothing else.
   */
  lemma CaughtTermIsForwarded(c: Setting, run: seq<Event>, s: State, i: nat)
    requires Leads(c, run, s) && PastForwarding(s)
    requires i < |s.log| && (s.log[i].Caught? || s.log[i].Handled?)
    ensures exists j :: i < j < |s.log| && s.log[j].Killed? && s.log[j].target == c.child
  {
    InvAlways(c, run, s);
    AnsweredMeansKilledLater(s.log, i);
    var j :| i < j < |s.log| && s.log[j].Killed?;
    assert s.log[j].target == c.child;
  }

  /** No TERM is invented, at any time: a kill names the server, follows a trap run, and misses only
      a server that has already exited. */
  lemma KillIsJustified(c: Setting, run: seq<Event>, s: State, j: nat)
    requires Leads(c, run, s)
    requires j < |s.log| && s.log[j].Killed?
    ensures s.log[j].target == c.child
    ensures SomeHandled(s.log[..j])
    ensures s.log[j].hit || ChildExited in s.log[..j]
  {
    InvAlways(c, run, s);
  }

  lemma {:induction false} DeferralsAreCounted(log: Log)
    ensures Deferred in log <==> TallyOf(log).deferred > 0
  {
    if log != [] {
      var n := |log| - 1;
      DeferralsAreCounted(log[..n]);
      assert log == log[..n] + [log[n]];
    }
  }

  /** Kills and trap runs balance: one kill for each run, except that all deferred runs share one. */
  lemma KillsMatchHandlings(c: Setting, run: seq<Event>, s: State)
    requires Leads(c, run, s) && PastForwarding(s)
    ensures var t := TallyOf(s.log);
            t.killed == if t.deferred == 0 then t.handled else t.handled - t.deferred + 1
    ensures c.nounset ==> TallyOf(s.log).deferred == 0
  {
    InvAlways(c, run, s);
    DeferralsAreCounted(s.log);
  }

  /** The script reaches its end only after the server has exited, however many TERMs arrive. */
  lemma EndMeansServerExited(c: Setting, run: seq<Event>, s: State)
    requires Leads(c, run, s) && s.at == END
    ensures PastForwarding(s) && s.child == Exited && ChildExited in s.log
  {
    InvAlways(c, run, s);
    EndFacts(c, s);
  }

  lemma AbortCauses(s: State)
    ensures s.mode == Live || s.mode == Aborted(CommandFailed) || s.mode == Aborted(UnboundVariable)
  {
    if s.mode.Aborted? && s.mode.why.UnboundVariable? {}
  }

  lemma EndFacts(c: Setting, s: State)
    requires ControlInv(c, s) && DataInv(c, s) && LogInv(c, s) && s.at == END
    ensures PastForwarding(s) && s.child == Exited && ChildExited in s.log
  {
    AbortCauses(s);
  }

  /** The first wait can be cut short by a TERM, and only by a TERM; the second never is. */
  lemma SecondWaitIsNeverCut(c: Setting, run: seq<Event>, s: State)
    requires Leads(c, run, s) && s.at == SECOND_WAIT
    ensures Step(c, s, WaitCut) == None
    ensures forall ok :: Step(c, s, WaitReturn(ok)).Some? ==> s.child == Exited
  {
    InvAlways(c, run, s);
  }

  // A server that is still running once the first wait is over has been sent its TERM.
  ghost predicate HitInv(c: Setting, s: State) {
    s.mode.Live? && TRAP_OFF <= s.at && s.child == Running ==>
      s.pending || s.handlers != [] || Killed(c.child, true) in s.log
  }

  lemma MainKeepsHit(c: Setting, s: State, ok: bool)
    requires ControlInv(c, s) && DataInv(c, s) && HitInv(c, s) && !Halted(s)
    requires !s.pending && s.handlers == [] && !s.waiting
    ensures RunMain(c, s, ok).Some? ==> HitInv(c, RunMain(c, s, ok).value)
  {
  }

  lemma HandlerKeepsHit(c: Setting, s: State, ok: bool)
    requires ControlInv(c, s) && DataInv(c, s) && HitInv(c, s) && !Halted(s) && s.handlers != []
    ensures RunHandler(c, s, ok).Some? ==> HitInv(c, RunHandler(c, s, ok).value)
  {
    HandlerTakesShape(c, s, ok);
    hide RunHandler;
  }

  lemma StepKeepsHit(c: Setting, s: State, e: Event)
    requires ControlInv(c, s) && DataInv(c, s) && HitInv(c, s)
    ensures Step(c, s, e).Some? ==> HitInv(c, Step(c, s, e).value)
  {
    hide RunMain, RunHandler;
    if !Halted(s) {
      match e
      case HandlerStep(ok) => if s.handlers != [] { HandlerKeepsHit(c, s, ok); }
      case MainStep(ok) => if !s.pending && s.handlers == [] && !s.waiting { MainKeepsHit(c, s, ok); }
      case _ =>
    }
  }

  lemma {:induction false} HitAlways(c: Setting, run: seq<Event>, s: State)
    requires Leads(c, run, s)
    ensures HitInv(c, s)
  {
    if run == [] {
      OnlyStart(c, s);
    } else {
      hide Step, Leads, HitInv, ControlInv, DataInv;
      var n := |run| - 1;
      assert run == run[..n] + [run[n]];
      var before := OneLess(c, run[..n], run[n], s);
      HitAlways(c, run[..n], before);
      InvAlways(c, run[..n], before);
      StepKeepsHit(c, before, run[n]);
    }
  }

  /** Why resetting the trap, after which a TERM is ignored, is safe: a server that the second wait
      still has to wait for has already been hit by a kill. */
  lemma RunningServerWasHit(c: Setting, run: seq<Event>, s: State)
    requires Leads(c, run, s) && PastForwarding(s) && TRAP_OFF <= s.at && s.child == Running
    ensures Killed(c.child, true) in s.log
  {
    HitAlways(c, run, s);
  }

  // The next thing the shell does may be a kill or the end of a wait.
  predicate MayFail(s: State) {
    s.waiting || (s.handlers != [] && s.handlers[0] == ForwardTerm) || s.at == KILL_DEFERRED
  }

  /** Wherever a kill or a wait can fail, errexit is off, so only the setup can end the script early
      through a failing command. */
  lemma FailingKillOrWaitIsHarmless(c: Setting, run: seq<Event>, s: State)
    requires Leads(c, run, s)
    ensures MayFail(s) ==> !s.errexit
    ensures s.mode == Aborted(CommandFailed) ==> s.at == SETUP
  {
    InvAlways(c, run, s);
  }

  // ----- what `set -u` changes -----

  /** Once all trap runs are over, an early one has killed the shell exactly when `set -u` is on. */
  lemma UnboundAbortExactly(c: Setting, run: seq<Event>, s: State)
    requires Leads(c, run, s)
    requires Halted(s) || s.handlers == []
    requires s.mode != Aborted(CommandFailed)
    ensures s.mode == Aborted(UnboundVariable) <==> c.nounset && Handled(true) in s.log
  {
    InvAlways(c, run, s);
    UnboundFacts(c, s);
  }

  lemma UnboundFacts(c: Setting, s: State)
    requires ControlInv(c, s) && LogInv(c, s)
    requires Halted(s) || s.handlers == []
    requires s.mode != Aborted(CommandFailed)
    ensures s.mode == Aborted(UnboundVariable) <==> c.nounset && Handled(true) in s.log
  {
    AbortCauses(s);
  }

  /** Under `set -u` the deferral is dead code: it is never recorded and never acted on. */
  lemma NounsetNeverDefers(c: Setting, run: seq<Event>, s: State)
    requires Leads(c, run, s) && c.nounset
    ensures Deferred !in s.log
    ensures CLEAR_KILL_NEEDED < s.at ==> s.killNeeded == Unset
    ensures s.at != KILL_DEFERRED
  {
    InvAlways(c, run, s);
  }

  // The trap is installed and the process id is not yet stored.
  predicate InWindow(s: State) {
    LAUNCH <= s.at <= STORE_PID
  }

  // Under `set -u`: the shell is dead or about to handle a TERM, and cannot leave the window.
  ghost predicate Doomed(s: State) {
    && InWindow(s) && Caught in s.log && (forall e :: e in s.log ==> !e.Killed?)
    && (s.mode.Live? ==> s.pending || s.handlers != [])
  }

  lemma TermDooms(c: Setting, s: State)
    requires Inv(c, s) && InWindow(s) && !Halted(s)
    ensures Step(c, s, Term).Some? && Doomed(Step(c, s, Term).value)
  {
  }

  lemma DoomStays(c: Setting, s: State, e: Event)
    requires ControlInv(c, s) && DataInv(c, s) && Doomed(s) && c.nounset
    ensures Step(c, s, e).Some? ==> Doomed(Step(c, s, e).value)
  {
  }

  lemma {:induction false} DoomedAlways(c: Setting, run: seq<Event>, s: State, rest: seq<Event>, t: State)
    requires Leads(c, run, s) && c.nounset && InWindow(s) && !Halted(s)
    requires Leads(c, run + [Term] + rest, t)
    ensures Doomed(t)
  {
    hide Step, Leads, Doomed, Inv, InWindow;
    if rest == [] {
      assert run + [Term] + rest == run + [Term];
      var before := OneLess(c, run, Term, t);
      RunIsDetermined(c, run, s, before);
      InvAlways(c, run, s);
      TermDooms(c, s);
    } else {
      var n := |rest| - 1;
      assert run + [Term] + rest == run + [Term] + rest[..n] + [rest[n]];
      var before := OneLess(c, run + [Term] + rest[..n], rest[n], t);
      DoomedAlways(c, run, s, rest[..n], before);
      InvParts(c, run + [Term] + rest[..n], before);
      DoomStays(c, before, rest[n]);
    }
  }

  lemma InvParts(c: Setting, run: seq<Event>, s: State)
    requires Leads(c, run, s)
    ensures ControlInv(c, s) && DataInv(c, s)
  {
    InvAlways(c, run, s);
  }

  /** Under `set -u`, whatever happens after a TERM in the window between installing the trap and
      storing the process id, the script never leaves the window and no kill is ever sent; if it halts,
      the shell has died of the unbound variable. */
  lemma EarlyTermEndsTheShell(c: Setting, run: seq<Event>, s: State, rest: seq<Event>, t: State)
    requires Leads(c, run, s) && c.nounset && InWindow(s) && !Halted(s)
    requires Leads(c, run + [Term] + rest, t)
    ensures InWindow(t) && Caught in t.log && forall e :: e in t.log ==> !e.Killed?
    ensures Halted(t) ==> t.mode == Aborted(UnboundVariable)
  {
    DoomedAlways(c, run, s, rest, t);
    InvParts(c, run + [Term] + rest, t);
    AbortCauses(t);
  }

  // Without `set -u`: the TERM is about to be handled, or recorded, and then answered by a kill.
  ghost predicate Remembered(c: Setting, s: State) {
    && s.mode.Live? && LAUNCH <= s.at
    && ((InWindow(s) && (s.pending || s.handlers != [])) || s.killNeeded == Text("yes"))
    && (KILL_DEFERRED < s.at ==> exists e :: e in s.log && e.Killed? && e.target == c.child)
  }

  lemma TermIsRemembered(c: Setting, s: State)
    requires Inv(c, s) && InWindow(s) && !Halted(s)
    ensures Step(c, s, Term).Some? && Remembered(c, Step(c, s, Term).value)
  {
  }

  lemma MainRemembers(c: Setting, s: State, ok: bool)
    requires ControlInv(c, s) && DataInv(c, s) && Remembered(c, s) && !c.nounset && !Halted(s)
    requires !s.pending && s.handlers == [] && !s.waiting
    ensures RunMain(c, s, ok).Some? ==> Remembered(c, RunMain(c, s, ok).value)
  {
    MainKeepsState(c, s, ok);
    hide RunMain, DataInv;
    if RunMain(c, s, ok).Some? {
      var t := RunMain(c, s, ok).value;
      AbortCauses(t);
      assert s.at == KILL_DEFERRED ==> Killed(c.child, Hits(c, s)) in t.log;
    }
  }

  lemma HandlerRemembers(c: Setting, s: State, ok: bool)
    requires ControlInv(c, s) && DataInv(c, s) && Remembered(c, s) && !c.nounset && !Halted(s) && s.handlers != []
    ensures RunHandler(c, s, ok).Some? ==> Remembered(c, RunHandler(c, s, ok).value)
  {
    HandlerTakesShape(c, s, ok);
    hide RunHandler;
  }

  lemma RememberedStays(c: Setting, s: State, e: Event)
    requires ControlInv(c, s) && DataInv(c, s) && Remembered(c, s) && !c.nounset
    ensures Step(c, s, e).Some? ==> Remembered(c, Step(c, s, e).value)
  {
    hide RunMain, RunHandler;
    if !Halted(s) {
      match e
      case HandlerStep(ok) => if s.handlers != [] { HandlerRemembers(c, s, ok); }
      case MainStep(ok) => if !s.pending && s.handlers == [] && !s.waiting { MainRemembers(c, s, ok); }
      case _ =>
    }
  }

  lemma {:induction false} RememberedAlways(c: Setting, run: seq<Event>, s: State, rest: seq<Event>, t: State)
    requires Leads(c, run, s) && !c.nounset && InWindow(s) && !Halted(s)
    requires Leads(c, run + [Term] + rest, t)
    ensures Remembered(c, t)
  {
    hide Step, Leads, Remembered, Inv, InWindow;
    if rest == [] {
      assert run + [Term] + rest == run + [Term];
      var before := OneLess(c, run, Term, t);
      RunIsDetermined(c, run, s, before);
      InvAlways(c, run, s);
      TermIsRemembered(c, s);
    } else {
      var n := |rest| - 1;
      assert run + [Term] + rest == run + [Term] + rest[..n] + [rest[n]];
      var before := OneLess(c, run + [Term] + rest[..n], rest[n], t);
      RememberedAlways(c, run, s, rest[..n], before);
      InvParts(c, run + [Term] + rest[..n], before);
      RememberedStays(c, before, rest[n]);
    }
  }

  /** Without `set -u`, whatever happens after a TERM in that window, the shell lives on; once no trap run
      is left over the TERM is on record, and past the deferred-kill check the server has been killed. */
  lemma EarlyTermIsDeferred(c: Setting, run: seq<Event>, s: State, rest: seq<Event>, t: State)
    requires Leads(c, run, s) && !c.nounset && InWindow(s) && !Halted(s)
    requires Leads(c, run + [Term] + rest, t)
    ensures t.mode.Live?
    ensures (!t.pending && t.handlers == []) || !InWindow(t) ==> t.killNeeded == Text("yes")
    ensures KILL_DEFERRED < t.at ==> exists e :: e in t.log && e.Killed? && e.target == c.child
  {
    RememberedAlways(c, run, s, rest, t);
  }

  lemma MainStepToKill(c: Setting, s: State)
    requires Inv(c, s) && s.mode.Live? && LAUNCH <= s.at <= KILL_DEFERRED
    requires s.handlers == [] && !s.pending && !s.waiting && s.killNeeded.Text? && s.child != Exited
    ensures Step(c, s, MainStep(true)).Some?
    ensures var t := Step(c, s, MainStep(true)).value;
            && t.mode.Live? && t.at == s.at + 1
            && t.handlers == [] && !t.pending && !t.waiting && t.killNeeded.Text? && t.child == Running
            && t.log == if s.at == KILL_DEFERRED then s.log + [Killed(c.child, true)] else s.log
  {
  }

  /** A deferred TERM is delivered: when nothing else happens, the main program goes straight to the
      deferred kill, and it hits the running server. */
  lemma {:induction false} DeferredKillFollows(c: Setting, run: seq<Event>, s: State) returns (rest: seq<Event>, t: State)
    requires Leads(c, run, s) && s.mode.Live? && LAUNCH <= s.at <= KILL_DEFERRED
    requires s.handlers == [] && !s.pending && !s.waiting && s.killNeeded.Text? && s.child != Exited
    ensures Leads(c, run + rest, t) && forall e :: e in rest ==> e == MainStep(true)
    ensures t.at == FIRST_WAIT && t.log == s.log + [Killed(c.child, true)]
    decreases FIRST_WAIT - s.at
  {
    hide Inv, Step, Leads;
    InvAlways(c, run, s);
    MainStepToKill(c, s);
    var next := Step(c, s, MainStep(true)).value;
    OneMore(c, run, s, MainStep(true), next);
    if s.at == KILL_DEFERRED {
      rest, t := [MainStep(true)], next;
    } else {
      var tail;
      tail, t := DeferredKillFollows(c, run + [MainStep(true)], next);
      rest := [MainStep(true)] + tail;
      assert run + [MainStep(true)] + tail == run + rest;
    }
  }

  /** In every setting some run reaches the window between installing the trap and storing the process id. */
  lemma WindowIsReached(c: Setting) returns (run: seq<Event>, s: State)
    ensures Leads(c, run, s) && s.mode.Live? && s.at == LAUNCH && s.handlers == [] && !s.pending && !s.waiting
  {
    var main := MainStep(true);
    var s0 := Start(c);
    var s1 := s0.(at := CLEAR_PID);
    var s2 := s1.(at := CLEAR_KILL_NEEDED, childPid := Unset);
    var s3 := s2.(at := TRAP_ON, killNeeded := Unset);
    s := s3.(at := LAUNCH, trapped := true);
    assert Step(c, s0, main) == Some(s1) && Step(c, s1, main) == Some(s2);
    assert Step(c, s2, main) == Some(s3) && Step(c, s3, main) == Some(s);
    hide Step, Start;
    NoEvent(c);
    OneMore(c, [], s0, main, s1);
    OneMore(c, [main], s1, main, s2);
    OneMore(c, [main] + [main], s2, main, s3);
    OneMore(c, [main] + [main] + [main], s3, main, s);
    run := [main] + [main] + [main] + [main];
  }

  // ----- progress -----

  function HandlerCost(hs: seq<HandlerPoint>): nat {
    if hs == [] then 0 else (if hs[0] == TestPid then 2 else 1) + HandlerCost(hs[1..])
  }

  // How many more events other than TERM a state allows at most.
  function Budget(s: State): nat {
    if Halted(s) then 0
    else 2 * (END - s.at) - (if s.waiting then 1 else 0) + HandlerCost(s.handlers)
         + (if s.pending then 3 else 0) + (if s.child == Exited then 0 else 1)
  }

  // Only the innermost trap run, the variables and the log may differ.
  predicate OnlyHandlersDiffer(s: State, t: State) {
    t.mode == s.mode && t.at == s.at && t.waiting == s.waiting && t.pending == s.pending && t.child == s.child
  }

  lemma PopMoves(s: State, t: State, ok: bool)
    requires t.handlers != [] && t.handlers == s.handlers && OnlyHandlersDiffer(s, t)
    ensures Pop(t, ok).mode.Aborted? || (OnlyHandlersDiffer(s, Pop(t, ok)) && Pop(t, ok).handlers == s.handlers[1..])
  {
  }

  lemma HandlerMoves(c: Setting, s: State, ok: bool)
    requires !Halted(s) && s.handlers != [] && RunHandler(c, s, ok).Some?
    ensures var t := RunHandler(c, s, ok).value;
            t.mode.Aborted? ||
            (OnlyHandlersDiffer(s, t)
             && (t.handlers == s.handlers[1..] ||
                 (s.handlers[0] == TestPid && t.handlers != [] && t.handlers[0] != TestPid && t.handlers[1..] == s.handlers[1..])))
  {
    hide Hits, IsNonempty, ReadsUnbound, Pop, LogKill;
    LogKillMoves(c, s);
    match s.handlers[0]
    case TestPid =>
    case ForwardTerm => PopMoves(s, LogKill(c, s), ok);
    case DeferTerm => PopMoves(s, Note(s, Deferred).(killNeeded := Text("yes")), true);
  }

  lemma LogKillMoves(c: Setting, s: State)
    ensures LogKill(c, s).handlers == s.handlers && OnlyHandlersDiffer(s, LogKill(c, s))
  {
  }

  predicate MovedOn(s: State, t: State) {
    t.mode.Aborted? ||
    (t.handlers == [] && t.pending == s.pending
     && if t.waiting then t.at == s.at && t.child == s.child else s.at < t.at)
  }

  lemma EarlyMainMoves(c: Setting, s: State, ok: bool)
    requires !Halted(s) && !s.waiting && s.handlers == [] && s.at <= STORE_PID && RunMain(c, s, ok).Some?
    ensures MovedOn(s, RunMain(c, s, ok).value)
  {
    hide Effect, Hits;
    EffectStays(c, s, CommandAt(s.at));
  }

  lemma LateMainMoves(c: Setting, s: State, ok: bool)
    requires !Halted(s) && !s.waiting && s.handlers == [] && STORE_PID < s.at && RunMain(c, s, ok).Some?
    ensures MovedOn(s, RunMain(c, s, ok).value)
  {
    hide Effect, Hits;
    EffectStays(c, s, CommandAt(s.at));
  }

  lemma EffectStays(c: Setting, s: State, command: Command)
    ensures var t := Effect(c, s, command);
            t.at == s.at && t.waiting == s.waiting && t.handlers == s.handlers && t.mode == s.mode && t.pending == s.pending
  {
  }

  lemma MainMoves(c: Setting, s: State, ok: bool)
    requires !Halted(s) && !s.waiting && s.handlers == [] && RunMain(c, s, ok).Some?
    ensures MovedOn(s, RunMain(c, s, ok).value)
  {
    hide RunMain, MovedOn;
    if s.at <= STORE_PID { EarlyMainMoves(c, s, ok); } else { LateMainMoves(c, s, ok); }
  }

  lemma SmallerBudget(s: State, t: State)
    requires !Halted(s)
    requires t.mode.Aborted? ||
             (t.pending == s.pending
              && if s.at < t.at then t.handlers == s.handlers && !s.waiting
                 else t.at == s.at && t.child == s.child
                      && if t.waiting == s.waiting then HandlerCost(t.handlers) < HandlerCost(s.handlers)
                         else t.waiting && t.handlers == s.handlers)
    ensures Budget(t) < Budget(s)
  {
  }

  lemma StepSpendsBudget(c: Setting, s: State, e: Event)
    requires Step(c, s, e).Some?
    ensures Budget(Step(c, s, e).value) <= if e.Term? then Budget(s) + 3 else Budget(s) - 1
  {
    match e
    case HandlerStep(ok) =>
      HandlerMoves(c, s, ok);
      SmallerBudget(s, RunHandler(c, s, ok).value);
    case MainStep(ok) =>
      MainMoves(c, s, ok);
      SmallerBudget(s, RunMain(c, s, ok).value);
    case TrapRun => assert ([TestPid] + s.handlers)[1..] == s.handlers;
    case _ =>
  }

  function Terms(run: seq<Event>): nat {
    if run == [] then 0 else Terms(run[..|run| - 1]) + if run[|run| - 1].Term? then 1 else 0
  }

  /** A run with n TERMs has at most 27 + 4n events: no interleaving goes on for ever. */
  lemma {:induction false} RunIsBounded(c: Setting, run: seq<Event>, s: State)
    requires Leads(c, run, s)
    ensures |run| + Budget(s) <= 27 + 4 * Terms(run)
  {
    if run == [] {
      OnlyStart(c, s);
    } else {
      hide Step, Leads, Budget;
      var n := |run| - 1;
      assert run == run[..n] + [run[n]];
      var before := OneLess(c, run[..n], run[n], s);
      RunIsBounded(c, run[..n], before);
      StepSpendsBudget(c, before, run[n]);
    }
  }

  // The shell can go on without waiting for anything outside it.
  ghost predicate ShellCanStep(c: Setting, s: State) {
    exists e: Event :: !e.Term? && !e.ChildExit? && Step(c, s, e).Some?
  }

  /** The script is stuck only while it waits for a running server with no TERM to be handled. */
  lemma NeverStuck(c: Setting, run: seq<Event>, s: State)
    requires Leads(c, run, s) && !Halted(s)
    ensures ShellCanStep(c, s) ||
            (s.waiting && !s.pending && s.handlers == [] && s.child == Running && Step(c, s, ChildExit).Some?)
  {
    InvAlways(c, run, s);
    if s.waiting {
      if s.pending {
        assert Step(c, s, WaitCut).Some?;
      } else if !Blocked(c, s) {
        assert Step(c, s, WaitReturn(true)).Some?;
      }
    } else if s.pending {
      assert Step(c, s, TrapRun).Some?;
    } else if s.handlers != [] {
      assert Step(c, s, HandlerStep(true)).Some?;
    } else {
      assert Step(c, s, MainStep(true)).Some?;
    }
  }

  /** A caught TERM never has to wait for the server: while one is pending or being handled, the shell can
      go on by itself. */
  lemma CaughtTermMovesOn(c: Setting, run: seq<Event>, s: State)
    requires Leads(c, run, s) && !Halted(s) && (s.pending || s.handlers != [])
    ensures ShellCanStep(c, s)
  {
    InvAlways(c, run, s);
    if s.waiting {
      assert Step(c, s, WaitCut).Some?;
    } else if s.pending {
      assert Step(c, s, TrapRun).Some?;
    } else {
      assert Step(c, s, HandlerStep(true)).Some?;
    }
  }

  /** The trap action comes before the next command, and a TERM cuts the first wait: while a TERM is pending
      the main program neither starts a command nor goes on waiting. */
  lemma TrapComesFirst(c: Setting, run: seq<Event>, s: State)
    requires Leads(c, run, s) && !Halted(s)
    ensures s.pending || s.handlers != [] ==> forall ok :: Step(c, s, MainStep(ok)) == None
    ensures s.pending ==>
              if s.waiting then Step(c, s, WaitCut).Some? && !Step(c, s, WaitCut).value.waiting
              else Step(c, s, TrapRun).Some? && Step(c, s, TrapRun).value.handlers == [TestPid] + s.handlers
    ensures !s.pending ==> Step(c, s, TrapRun) == None && Step(c, s, WaitCut) == None
  {
    InvAlways(c, run, s);
  }

  lemma CutWaitIsHandled(c: Setting, s: State) returns (states: seq<State>)
    requires Inv(c, s) && s.mode.Live? && s.at == FIRST_WAIT && s.waiting && !s.pending && s.child == Running
    ensures |states| == 5
    ensures Step(c, s, Term) == Some(states[0]) && Step(c, states[0], WaitCut) == Some(states[1])
    ensures Step(c, states[1], TrapRun) == Some(states[2]) && Step(c, states[2], HandlerStep(true)) == Some(states[3])
    ensures Step(c, states[3], HandlerStep(true)) == Some(states[4])
    ensures var t := states[4];
            t.mode.Live? && t.at == TRAP_OFF && t.handlers == [] && !t.pending
            && t.log == s.log + [Caught, Handled(false), Killed(c.child, true)]
  {
    var s0 := Step(c, s, Term).value;
    var s1 := Step(c, s0, WaitCut).value;
    var s2 := Step(c, s1, TrapRun).value;
    var s3 := Step(c, s2, HandlerStep(true)).value;
    assert s3.handlers == [ForwardTerm];
    var s4 := Step(c, s3, HandlerStep(true)).value;
    states := [s0, s1, s2, s3, s4];
  }

  /** The ordinary stop of a pod: a TERM that arrives while the script waits for the running server cuts the
      wait short, and the handler's kill reaches the server while it runs. */
  lemma TermWhileWaitingIsForwarded(c: Setting, run: seq<Event>, s: State) returns (t: State)
    requires Leads(c, run, s) && s.mode.Live? && s.at == FIRST_WAIT && s.waiting && !s.pending && s.child == Running
    ensures Leads(c, run + [Term] + [WaitCut] + [TrapRun] + [HandlerStep(true)] + [HandlerStep(true)], t)
    ensures t.mode.Live? && t.at == TRAP_OFF && t.handlers == [] && !t.pending
    ensures t.log == s.log + [Caught, Handled(false), Killed(c.child, true)]
  {
    InvAlways(c, run, s);
    hide Step, Leads, Inv;
    var m := CutWaitIsHandled(c, s);
    OneMore(c, run, s, Term, m[0]);
    OneMore(c, run + [Term], m[0], WaitCut, m[1]);
    OneMore(c, run + [Term] + [WaitCut], m[1], TrapRun, m[2]);
    OneMore(c, run + [Term] + [WaitCut] + [TrapRun], m[2], HandlerStep(true), m[3]);
    OneMore(c, run + [Term] + [WaitCut] + [TrapRun] + [HandlerStep(true)], m[3], HandlerStep(true), m[4]);
    t := m[4];
  }

  /** No outcome is ruled out: a TERM may arrive and a running server may exit at any time, and the setup
      commands, a wait that ends and a kill that misses may each succeed or fail. */
  lemma OutcomesAreOpen(c: Setting, run: seq<Event>, s: State, ok: bool)
    requires Leads(c, run, s) && !Halted(s)
    ensures Step(c, s, Term) ==
            Some(if LAUNCH <= s.at <= TRAP_OFF then s.(pending := true, log := s.log + [Caught])
                 else s.(log := s.log + [Ignored]))
    ensures Step(c, s, ChildExit).Some? <==> s.child == Running
    ensures s.at == SETUP && !s.pending && s.handlers == [] ==> Step(c, s, MainStep(ok)).Some?
    ensures s.waiting && s.child == Exited ==> Step(c, s, WaitReturn(ok)).Some?
    ensures s.child == Exited && s.handlers != [] && s.handlers[0] == ForwardTerm ==> Step(c, s, HandlerStep(ok)).Some?
    ensures s.child == Exited && s.at == KILL_DEFERRED && !s.pending && s.handlers == [] ==>
              Step(c, s, MainStep(ok)).Some?
  {
    InvAlways(c, run, s);
  }

  lemma NextStep(c: Setting, run: seq<Event>, s: State) returns (e: Event, t: State)
    requires Leads(c, run, s) && !Halted(s)
    ensures !e.Term? && Leads(c, run + [e], t) && Budget(t) < Budget(s)
  {
    NeverStuck(c, run, s);
    e :| !e.Term? && Step(c, s, e).Some?;
    t := Step(c, s, e).value;
    StepSpendsBudget(c, s, e);
    OneMore(c, run, s, e, t);
  }

  /** From every reachable state, some continuation without further TERMs halts the script. */
  lemma {:induction false} CanAlwaysHalt(c: Setting, run: seq<Event>, s: State) returns (rest: seq<Event>, t: State)
    requires Leads(c, run, s)
    ensures Terms(rest) == 0
    ensures Leads(c, run + rest, t) && Halted(t)
    decreases Budget(s)
  {
    if Halted(s) {
      rest, t := [], s;
      assert run + rest == run;
    } else {
      var e, next := NextStep(c, run, s);
      var tail;
      tail, t := CanAlwaysHalt(c, run + [e], next);
      rest := [e] + tail;
      assert run + [e] + tail == run + ([e] + tail);
      NoTermsInFront(e, tail);
    }
  }

  lemma {:induction false} NoTermsInFront(e: Event, tail: seq<Event>)
    requires !e.Term?
    ensures Terms([e] + tail) == Terms(tail)
  {
    if tail == [] {
      assert ([e] + tail)[..0] == [];
    } else {
      NoTermsInFront(e, tail[..|tail| - 1]);
      assert ([e] + tail)[..|tail|] == [e] + tail[..|tail| - 1];
    }
  }

  // ----- when no TERM is lost -----

  // However a run ends, each TERM that was caught has been followed by a kill of the server.
  ghost predicate NoTermLost(c: Setting) {
    forall run, s, i: nat ::
      Leads(c, run, s) && Halted(s) && i < |s.log| && s.log[i].Caught? ==> KilledAfter(c, s.log, i)
  }

  ghost predicate KilledAfter(c: Setting, log: Log, i: nat) {
    exists j :: i < j < |log| && log[j].Killed? && log[j].target == c.child
  }

  lemma HaltAnswers(c: Setting, s: State)
    requires Inv(c, s) && Halted(s) && !c.nounset
    ensures !Unanswered(s.log)
  {
    AbortCauses(s);
  }

  // Under `set -u` some run that halts loses a TERM.
  lemma NounsetLosesTerm(c: Setting) returns (run: seq<Event>, s: State, i: nat)
    requires c.nounset
    ensures Leads(c, run, s) && Halted(s) && i < |s.log| && s.log[i].Caught? && !KilledAfter(c, s.log, i)
  {
    hide Step, Leads, Inv;
    var start, at := WindowIsReached(c);
    InvAlways(c, start, at);
    TermDooms(c, at);
    OneMore(c, start, at, Term, Step(c, at, Term).value);
    var rest;
    rest, s := CanAlwaysHalt(c, start + [Term], Step(c, at, Term).value);
    run := start + [Term] + rest;
    EarlyTermEndsTheShell(c, start, at, rest, s);
    i :| 0 <= i < |s.log| && s.log[i] == Caught;
  }

  /** The guarantee of the script, for all settings: no TERM is ever lost exactly when `set -u` is off. */
  lemma NoTermLostExactly(c: Setting)
    ensures NoTermLost(c) <==> !c.nounset
  {
    if c.nounset {
      var run, s, i := NounsetLosesTerm(c);
    } else {
      forall run, s, i: nat | Leads(c, run, s) && Halted(s) && i < |s.log| && s.log[i].Caught?
        ensures KilledAfter(c, s.log, i)
      {
        hide Leads;
        InvAlways(c, run, s);
        HaltAnswers(c, s);
        AnsweredMeansKilledLater(s.log, i);
      }
    }
  }
}
