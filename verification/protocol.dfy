/** The subscriber over a whole process: any sequence of handler calls, as the
    runner and the runtime deliver them, starting from a freshly constructed
    subscriber. The properties here relate several calls. */
module Protocol {
  import opened Git
  import opened Trace
  import opened StashSubscriber

  /** One delivery to the subscriber, with the collaborators' answers it will get. */
  datatype Call =
    | RunStarted(context: Context, pendingFiles: nat, token: string, save: Outcome) // saveStash
    | RunFinished(context: Context, pop: Outcome)  // popStash, on completion or on failure of the run
    | ConsoleError(pop: Outcome)                   // handleErrors, on a console exception
    | ProcessEnd(lastError: bool, pop: Outcome)    // the shutdown function, if registered

  /** The accumulated result of a sequence of calls. */
  datatype Session = Session(state: Subscriber, trace: seq<Effect>, thrown: seq<RuntimeException>)

  /** The state invariant: a stash is only ever applied with the safety net armed. */
  predicate Armed(s: Subscriber)
  {
    s.stashIsApplied ==> s.shutdownFunctionRegistered
  }

  function Thrown(c: Completion): seq<RuntimeException>
  {
    if c.Threw? then [c.exception] else []
  }

  function Apply(cfg: Configuration, s: Subscriber, c: Call): Step
  {
    match c
    case RunStarted(ctx, n, token, o) => SaveStash(cfg, s, ctx, n, token, o)
    case RunFinished(ctx, o) => PopStash(cfg, s, ctx, o)
    case ConsoleError(o) => HandleErrors(cfg, s, o)
    case ProcessEnd(lastError, o) => Shutdown(cfg, s, lastError, o)
  }

  /** Delivers the calls in order; an exception does not stop later deliveries. */
  function Replay(cfg: Configuration, s: Subscriber, calls: seq<Call>): Session
    decreases |calls|
  {
    if calls == [] then Session(s, [], [])
    else
      var step := Apply(cfg, s, calls[0]);
      var rest := Replay(cfg, step.state, calls[1..]);
      Session(rest.state, step.trace + rest.trace, Thrown(step.completion) + rest.thrown)
  }

  /** Every handler keeps the safety net armed while a stash is applied. */
  lemma ApplyKeepsArmed(cfg: Configuration, s: Subscriber, c: Call)
    requires Armed(s)
    ensures Armed(Apply(cfg, s, c).state)
    ensures s.shutdownFunctionRegistered ==> Apply(cfg, s, c).state.shutdownFunctionRegistered
  {
  }

  /** One handler registers the shutdown function at most once, and only if it was not yet. */
  lemma ApplyRegisters(cfg: Configuration, s: Subscriber, c: Call)
    ensures var step := Apply(cfg, s, c);
      && (s.shutdownFunctionRegistered ==> step.state.shutdownFunctionRegistered)
      && Registrations(step.trace) == (if s.shutdownFunctionRegistered || !step.state.shutdownFunctionRegistered then 0 else 1)
  {
  }

  /** With no stash applied, a handler that issues no stash save pops nothing and applies nothing. */
  lemma ApplyWithoutSave(cfg: Configuration, s: Subscriber, c: Call)
    requires !s.stashIsApplied
    requires StashSaves(Apply(cfg, s, c).trace) == 0
    ensures StashPops(Apply(cfg, s, c).trace) == 0
    ensures !Apply(cfg, s, c).state.stashIsApplied
  {
  }

  lemma {:induction false} ReplayKeepsArmed(cfg: Configuration, s: Subscriber, calls: seq<Call>)
    requires Armed(s)
    ensures Armed(Replay(cfg, s, calls).state)
    decreases |calls|
  {
    if calls != [] {
      ApplyKeepsArmed(cfg, s, calls[0]);
      ReplayKeepsArmed(cfg, Apply(cfg, s, calls[0]).state, calls[1..]);
    }
  }

  /** Registration is idempotent: the shutdown function is registered at most once,
      and once registered the flag stays set. */
  lemma {:induction false} RegisteredAtMostOnce(cfg: Configuration, s: Subscriber, calls: seq<Call>)
    ensures var r := Replay(cfg, s, calls);
      && (s.shutdownFunctionRegistered ==> r.state.shutdownFunctionRegistered)
      && Registrations(r.trace) == (if s.shutdownFunctionRegistered || !r.state.shutdownFunctionRegistered then 0 else 1)
    decreases |calls|
  {
    if calls != [] {
      var step := Apply(cfg, s, calls[0]);
      ApplyRegisters(cfg, s, calls[0]);
      RegisteredAtMostOnce(cfg, step.state, calls[1..]);
      TraceAppend(step.trace, Replay(cfg, step.state, calls[1..]).trace);
    }
  }

  /** From a fresh subscriber: at most one registration, and exactly one iff the flag ends set. */
  lemma FreshRegistersAtMostOnce(cfg: Configuration, calls: seq<Call>)
    ensures Registrations(Replay(cfg, Fresh, calls).trace) <= 1
    ensures Registrations(Replay(cfg, Fresh, calls).trace) == 1 <==> Replay(cfg, Fresh, calls).state.shutdownFunctionRegistered
  {
    RegisteredAtMostOnce(cfg, Fresh, calls);
  }

  /** With unstaged changes not ignored, no call does anything at all. */
  lemma {:induction false} DisabledIsInert(cfg: Configuration, s: Subscriber, calls: seq<Call>)
    requires !cfg.ignoreUnstagedChanges
    ensures Replay(cfg, s, calls) == Session(s, [], [])
    decreases |calls|
  {
    if calls != [] {
      assert Apply(cfg, s, calls[0]) == Step(s, [], Normal);
      DisabledIsInert(cfg, s, calls[1..]);
    }
  }

  /** Outside a pre-commit run the runner's start and finish deliveries do nothing. */
  lemma {:induction false} OtherContextsAreInert(cfg: Configuration, s: Subscriber, calls: seq<Call>)
    requires forall i :: 0 <= i < |calls| ==> (calls[i].RunStarted? || calls[i].RunFinished?)
    requires forall i :: 0 <= i < |calls| ==> !calls[i].context.GitPreCommitContext?
    ensures Replay(cfg, s, calls) == Session(s, [], [])
    decreases |calls|
  {
    if calls != [] {
      assert Apply(cfg, s, calls[0]) == Step(s, [], Normal);
      OtherContextsAreInert(cfg, s, calls[1..]);
    }
  }

  /** A stash is only popped, and only ends applied, if a stash save was issued. */
  lemma {:induction false} NoPopWithoutSave(cfg: Configuration, s: Subscriber, calls: seq<Call>)
    requires !s.stashIsApplied
    requires StashSaves(Replay(cfg, s, calls).trace) == 0
    ensures StashPops(Replay(cfg, s, calls).trace) == 0
    ensures !Replay(cfg, s, calls).state.stashIsApplied
    decreases |calls|
  {
    if calls != [] {
      var step := Apply(cfg, s, calls[0]);
      var rest := Replay(cfg, step.state, calls[1..]);
      TraceAppend(step.trace, rest.trace);
      ApplyWithoutSave(cfg, s, calls[0]);
      NoPopWithoutSave(cfg, step.state, calls[1..]);
    }
  }

  /** The crash path does exactly what the normal completion path of a pre-commit run
      does: both pop when unstaged changes are ignored, and both do nothing otherwise. */
  lemma CrashPathEquivalence(cfg: Configuration, s: Subscriber, o: Outcome)
    requires Armed(s)
    ensures Shutdown(cfg, s, true, o) == PopStash(cfg, s, GitPreCommitContext, o)
  {
  }

  /** From construction, a stash can only be applied with unstaged changes ignored
      and the shutdown function registered. */
  lemma FreshAppliedIsArmed(cfg: Configuration, calls: seq<Call>)
    ensures Replay(cfg, Fresh, calls).state.stashIsApplied ==>
      cfg.ignoreUnstagedChanges && Replay(cfg, Fresh, calls).state.shutdownFunctionRegistered
  {
    ReplayKeepsArmed(cfg, Fresh, calls);
    if !cfg.ignoreUnstagedChanges {
      DisabledIsInert(cfg, Fresh, calls);
    }
  }

  /** Whatever happened since construction, a stash still applied when the process ends
      with an error recorded by `error_get_last()` is reapplied by the shutdown function. */
  lemma SafetyNetRestores(cfg: Configuration, calls: seq<Call>)
    requires Replay(cfg, Fresh, calls).state.stashIsApplied
    ensures var s := Replay(cfg, Fresh, calls).state;
      var r := Shutdown(cfg, s, true, Succeeded);
      && s.shutdownFunctionRegistered
      && !r.state.stashIsApplied
      && StashPops(r.trace) == 1
      && r.completion == Normal
  {
    FreshAppliedIsArmed(cfg, calls);
  }
}
