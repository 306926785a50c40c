/** The stash subscriber: two flags, the gate, and the save and pop
    transitions. Every handler is a pure function from the current flags and
    the collaborators' answers to the new flags, the effects it produced and
    how it completed (normally or by throwing). */
module StashSubscriber {
  import opened Text
  import opened Git
  import opened Trace

  /** The kind of run the handlers are told about. Only a pre-commit run stashes. */
  datatype Context = GitPreCommitContext | GitCommitMsgContext | RunContext

  /** The part of the configuration the subscriber reads. */
  datatype Configuration = Configuration(ignoreUnstagedChanges: bool)

  /** The subscriber's own state: its two private flags. */
  datatype Subscriber = Subscriber(stashIsApplied: bool, shutdownFunctionRegistered: bool)

  /** A freshly constructed subscriber. */
  const Fresh := Subscriber(false, false)

  /** The exception thrown when the stash cannot be reapplied. */
  datatype RuntimeException = RuntimeException(message: string, code: int, previous: ProcessException)

  /** How a handler returned. */
  datatype Completion = Normal | Threw(exception: RuntimeException)

  /** The result of one handler call. */
  datatype Step = Step(state: Subscriber, trace: seq<Effect>, completion: Completion)

  /** The first part of the message of a failed pop: the manual remedy. */
  const PopRemedy := "The stashed changes could not be applied. Please run `git stash pop` manually!"

  /** A step that changed nothing and did nothing. */
  predicate Inert(s: Subscriber, r: Step)
  {
    r.state == s && r.trace == [] && r.completion == Normal
  }

  /** The gate: stashing applies to pre-commit runs when unstaged changes are to be ignored. */
  predicate IsStashEnabled(cfg: Configuration, ctx: Context)
  {
    cfg.ignoreUnstagedChanges && ctx.GitPreCommitContext?
  }

  /** Registers the shutdown function unless that has happened already. */
  function RegisterShutdownHandler(s: Subscriber): (r: (Subscriber, seq<Effect>))
    ensures r.0.shutdownFunctionRegistered
    ensures r.0.stashIsApplied == s.stashIsApplied
    ensures Registrations(r.1) == (if s.shutdownFunctionRegistered then 0 else 1)
    ensures Commands(r.1) == [] && Lines(r.1) == []
  {
    if s.shutdownFunctionRegistered then (s, [])
    else (s.(shutdownFunctionRegistered := true), [RegisterShutdownFunction])
  }

  /** The exception a failed pop escalates to, keeping the git failure as previous. */
  function PopFailure(e: ProcessException): (x: RuntimeException)
    ensures x.previous == e && x.code == 0
    ensures StartsWith(x.message, PopRemedy)
    ensures Contains(x.message, e.message)
  {
    var more := "More info: " + Describe(e);
    StartsWithAppend(PopRemedy, more);
    ContainsAfter("More info: ", Describe(e), e.message);
    ContainsAfter(PopRemedy, more, e.message);
    RuntimeException(PopRemedy + more, 0, e)
  }

  /** The pending-diff query alone. */
  function DiffQuery(): (t: seq<Effect>)
    ensures Commands(t) == [DiffPending] && Lines(t) == [] && Registrations(t) == 0
    ensures StashSaves(t) == 0 && StashPops(t) == 0
  {
    Snoc([], Run(DiffPending));
    assert [] + [Run(DiffPending)] == [Run(DiffPending)];
    [Run(DiffPending)]
  }

  /** The pending-diff query, the stashing notice and the stash save, in that order. */
  function SaveAttempt(token: string): (t: seq<Effect>)
    ensures Commands(t) == [DiffPending, Stash(SaveArgs(UniqueLabel(token)))]
    ensures Lines(t) == [StashingNotice] && Registrations(t) == 0
    ensures StashSaves(t) == 1 && StashPops(t) == 0
  {
    var queried := DiffQuery();
    var save := Stash(SaveArgs(UniqueLabel(token)));
    Snoc(queried, Write(StashingNotice));
    Snoc(queried + [Write(StashingNotice)], Run(save));
    queried + [Write(StashingNotice)] + [Run(save)]
  }

  /** A save attempt followed by the line reporting why it failed. */
  function SaveFailureReport(token: string, reason: string): (t: seq<Effect>)
    ensures Commands(t) == [DiffPending, Stash(SaveArgs(UniqueLabel(token)))]
    ensures Lines(t) == [StashingNotice, StashFailedNotice(reason)] && Registrations(t) == 0
    ensures StashSaves(t) == 1 && StashPops(t) == 0
  {
    Snoc(SaveAttempt(token), Write(StashFailedNotice(reason)));
    SaveAttempt(token) + [Write(StashFailedNotice(reason))]
  }

  /** The reapplying notice followed by the quiet stash pop. */
  function PopAttempt(): (t: seq<Effect>)
    ensures Commands(t) == [Stash(PopArgs)] && Lines(t) == [ReapplyingNotice] && Registrations(t) == 0
    ensures StashSaves(t) == 0 && StashPops(t) == 1
  {
    Snoc([], Write(ReapplyingNotice));
    assert [] + [Write(ReapplyingNotice)] == [Write(ReapplyingNotice)];
    Snoc([Write(ReapplyingNotice)], Run(Stash(PopArgs)));
    [Write(ReapplyingNotice)] + [Run(Stash(PopArgs))]
  }

  /** Checks for unstaged changes and, if there are any, stashes them keeping the index.
      `pendingFiles` is the number of files in the pending diff, `token` the unique
      part of the stash label and `outcome` what `git stash save` reported. */
  function DoSaveStash(s: Subscriber, pendingFiles: nat, token: string, outcome: Outcome): (r: Step)
    // a save never throws: its failure is reported and swallowed
    ensures r.completion == Normal
    ensures StashPops(r.trace) == 0
    // a clean working copy: nothing stashed, nothing written, nothing changed
    ensures pendingFiles == 0 ==>
      r.state == s && Commands(r.trace) == [DiffPending] && StashSaves(r.trace) == 0 && Lines(r.trace) == [] && Registrations(r.trace) == 0
    // otherwise exactly one save of the unstaged edits under a fresh label
    ensures pendingFiles > 0 ==>
      Commands(r.trace) == [DiffPending, Stash(SaveArgs(UniqueLabel(token)))] && StashSaves(r.trace) == 1
    ensures pendingFiles > 0 && outcome.Succeeded? ==>
      && r.state == Subscriber(true, true)
      && Lines(r.trace) == [StashingNotice]
      && Registrations(r.trace) == (if s.shutdownFunctionRegistered then 0 else 1)
    ensures pendingFiles > 0 && outcome.Failed? ==>
      && r.state == s
      && Lines(r.trace) == [StashingNotice, StashFailedNotice(outcome.error.message)]
      && Registrations(r.trace) == 0
  {
    if pendingFiles == 0 then
      Step(s, DiffQuery(), Normal)
    else
      match outcome
      case Failed(e) =>
        Step(s, SaveFailureReport(token, e.message), Normal)
      case Succeeded =>
        var attempted := SaveAttempt(token);
        var (s', registered) := RegisterShutdownHandler(s.(stashIsApplied := true));
        TraceAppend(attempted, registered);
        Step(s', attempted + registered, Normal)
  }

  /** Reapplies the stash if one is applied. A failed pop throws before the flag is
      cleared, so the subscriber still believes the stash is applied. */
  function DoPopStash(s: Subscriber, outcome: Outcome): (r: Step)
    ensures r.state.shutdownFunctionRegistered == s.shutdownFunctionRegistered
    ensures StashSaves(r.trace) == 0 && Registrations(r.trace) == 0
    // nothing applied: nothing to do
    ensures !s.stashIsApplied ==> Inert(s, r)
    // applied: exactly one quiet pop, announced by one line
    ensures s.stashIsApplied ==>
      && Commands(r.trace) == [Stash(PopArgs)]
      && StashPops(r.trace) == 1
      && Lines(r.trace) == [ReapplyingNotice]
    ensures s.stashIsApplied && outcome.Succeeded? ==> !r.state.stashIsApplied && r.completion == Normal
    // a failed pop escalates and leaves the flag set
    ensures s.stashIsApplied && outcome.Failed? ==>
      && r.state == s
      && r.completion == Threw(PopFailure(outcome.error))
  {
    if !s.stashIsApplied then
      Step(s, [], Normal)
    else
      var attempted := PopAttempt();
      match outcome
      case Failed(e) => Step(s, attempted, Threw(PopFailure(e)))
      case Succeeded => Step(s.(stashIsApplied := false), attempted, Normal)
  }

  /** Handler for the start of a run. */
  function SaveStash(cfg: Configuration, s: Subscriber, ctx: Context, pendingFiles: nat, token: string, outcome: Outcome): (r: Step)
    ensures !IsStashEnabled(cfg, ctx) ==> Inert(s, r)
    ensures IsStashEnabled(cfg, ctx) ==> r == DoSaveStash(s, pendingFiles, token, outcome)
    // a stash is saved iff the gate is open and there is something to hide
    ensures StashSaves(r.trace) == (if IsStashEnabled(cfg, ctx) && pendingFiles > 0 then 1 else 0)
    ensures r.state.stashIsApplied <==>
      s.stashIsApplied || (IsStashEnabled(cfg, ctx) && pendingFiles > 0 && outcome.Succeeded?)
  {
    if !IsStashEnabled(cfg, ctx) then Step(s, [], Normal)
    else DoSaveStash(s, pendingFiles, token, outcome)
  }

  /** Handler for the completion or failure of a run. */
  function PopStash(cfg: Configuration, s: Subscriber, ctx: Context, outcome: Outcome): (r: Step)
    ensures !IsStashEnabled(cfg, ctx) ==> Inert(s, r)
    ensures IsStashEnabled(cfg, ctx) ==> r == DoPopStash(s, outcome)
    // a pop is issued iff the gate is open and a stash is applied
    ensures StashPops(r.trace) == (if IsStashEnabled(cfg, ctx) && s.stashIsApplied then 1 else 0)
    ensures r.state.stashIsApplied <==>
      s.stashIsApplied && !(IsStashEnabled(cfg, ctx) && outcome.Succeeded?)
  {
    if !IsStashEnabled(cfg, ctx) then Step(s, [], Normal)
    else DoPopStash(s, outcome)
  }

  /** Handler for console exceptions, also run by the shutdown function when an error is recorded: pops whenever unstaged changes are ignored, whatever the context. */
  function HandleErrors(cfg: Configuration, s: Subscriber, outcome: Outcome): (r: Step)
    ensures !cfg.ignoreUnstagedChanges ==> Inert(s, r)
    ensures cfg.ignoreUnstagedChanges ==> r == DoPopStash(s, outcome)
    ensures StashPops(r.trace) == (if cfg.ignoreUnstagedChanges && s.stashIsApplied then 1 else 0)
    ensures r.state.stashIsApplied <==> s.stashIsApplied && !(cfg.ignoreUnstagedChanges && outcome.Succeeded?)
  {
    if !cfg.ignoreUnstagedChanges then Step(s, [], Normal)
    else DoPopStash(s, outcome)
  }

  /** The registered shutdown function, run by the runtime at process end.
      It exists only once registered, and acts only when a last error is recorded. */
  function Shutdown(cfg: Configuration, s: Subscriber, lastError: bool, outcome: Outcome): (r: Step)
    ensures !(s.shutdownFunctionRegistered && lastError) ==> Inert(s, r)
    ensures s.shutdownFunctionRegistered && lastError ==> r == HandleErrors(cfg, s, outcome)
    ensures StashPops(r.trace) ==
      (if s.shutdownFunctionRegistered && lastError && cfg.ignoreUnstagedChanges && s.stashIsApplied then 1 else 0)
  {
    if !s.shutdownFunctionRegistered || !lastError then Step(s, [], Normal)
    else HandleErrors(cfg, s, outcome)
  }

  /** The gate alone decides whether the run handlers act: on a dirty tree the start
      of a run saves iff it is open, with a stash applied its end pops iff it is open,
      and when open the error path does exactly what the end of the run does. */
  lemma GateDecides(cfg: Configuration, ctx: Context, s: Subscriber, pendingFiles: nat, token: string, save: Outcome, pop: Outcome)
    ensures pendingFiles > 0 ==>
      (IsStashEnabled(cfg, ctx) <==> StashSaves(SaveStash(cfg, s, ctx, pendingFiles, token, save).trace) == 1)
    ensures s.stashIsApplied ==>
      (IsStashEnabled(cfg, ctx) <==> StashPops(PopStash(cfg, s, ctx, pop).trace) == 1)
    ensures IsStashEnabled(cfg, ctx) ==> HandleErrors(cfg, s, pop) == PopStash(cfg, s, ctx, pop)
    ensures !cfg.ignoreUnstagedChanges ==> !IsStashEnabled(cfg, ctx)
  {
  }
}
