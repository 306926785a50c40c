/** Runs of a few calls, each stated over the concatenated trace of the calls:
    the save/pop round trip, idempotence of the pop, isolation of a failed save,
    and what a failed pop leaves behind. */
module Scenarios {
  import opened Git
  import opened Trace
  import opened StashSubscriber

  /** What a successful save from a fresh subscriber leaves behind. */
  lemma FreshSave(cfg: Configuration, pendingFiles: nat, token: string)
    requires cfg.ignoreUnstagedChanges && pendingFiles > 0
    ensures var save := SaveStash(cfg, Fresh, GitPreCommitContext, pendingFiles, token, Succeeded);
      && save.state == Subscriber(true, true)
      && save.completion == Normal
      && Commands(save.trace) == [DiffPending, Stash(SaveArgs(UniqueLabel(token)))]
      && Lines(save.trace) == [StashingNotice]
      && Registrations(save.trace) == 1
      && StashSaves(save.trace) == 1 && StashPops(save.trace) == 0
  {
  }

  /** What reapplying an applied stash leaves behind, on the normal and the crash path. */
  lemma AppliedPop(cfg: Configuration, s: Subscriber, o: Outcome)
    requires cfg.ignoreUnstagedChanges && s.stashIsApplied && s.shutdownFunctionRegistered
    ensures var pop := PopStash(cfg, s, GitPreCommitContext, o);
      && pop == Shutdown(cfg, s, true, o)
      && pop == HandleErrors(cfg, s, o)
      && pop.state.shutdownFunctionRegistered
      && (o.Succeeded? ==> !pop.state.stashIsApplied && pop.completion == Normal)
      && (o.Failed? ==> pop.state == s && pop.completion == Threw(PopFailure(o.error)))
      && Commands(pop.trace) == [Stash(PopArgs)]
      && Lines(pop.trace) == [ReapplyingNotice]
      && Registrations(pop.trace) == 0
      && StashSaves(pop.trace) == 0 && StashPops(pop.trace) == 1
  {
  }

  /** A pre-commit run with unstaged changes: one stash save under the generated label,
      one quiet pop, two status lines, one registration, and nothing left applied. */
  lemma PreCommitRoundTrip(cfg: Configuration, pendingFiles: nat, token: string)
    requires cfg.ignoreUnstagedChanges && pendingFiles > 0
    ensures var save := SaveStash(cfg, Fresh, GitPreCommitContext, pendingFiles, token, Succeeded);
      var pop := PopStash(cfg, save.state, GitPreCommitContext, Succeeded);
      var t := save.trace + pop.trace;
      && Commands(t) == [DiffPending, Stash(SaveArgs(UniqueLabel(token))), Stash(PopArgs)]
      && Lines(t) == [StashingNotice, ReapplyingNotice]
      && Registrations(t) == 1
      && save.completion == Normal && pop.completion == Normal
      && pop.state == Subscriber(false, true)
  {
    var save := SaveStash(cfg, Fresh, GitPreCommitContext, pendingFiles, token, Succeeded);
    FreshSave(cfg, pendingFiles, token);
    AppliedPop(cfg, save.state, Succeeded);
    var pop := PopStash(cfg, save.state, GitPreCommitContext, Succeeded);
    TraceAppend(save.trace, pop.trace);
    var saved := Stash(SaveArgs(UniqueLabel(token)));
    assert [DiffPending, saved] + [Stash(PopArgs)] == [DiffPending, saved, Stash(PopArgs)];
    assert [StashingNotice] + [ReapplyingNotice] == [StashingNotice, ReapplyingNotice];
  }

  /** Popping twice after one save issues one pop; the second call finds nothing applied. */
  lemma PopIsIdempotent(s: Subscriber, o: Outcome)
    requires s.stashIsApplied
    ensures var first := DoPopStash(s, Succeeded);
      var second := DoPopStash(first.state, o);
      && StashPops(first.trace + second.trace) == 1
      && !second.state.stashIsApplied
      && second.trace == []
  {
    var first := DoPopStash(s, Succeeded);
    var second := DoPopStash(first.state, o);
    TraceAppend(first.trace, second.trace);
  }

  /** After a successful save, the run's completion pops, and a shutdown with an
      error recorded by `error_get_last()` pops nothing more: one save, one pop, nothing applied, nothing thrown. */
  lemma CompletionThenCrashPopsOnce(cfg: Configuration, pendingFiles: nat, token: string, o: Outcome)
    requires cfg.ignoreUnstagedChanges && pendingFiles > 0
    ensures var save := SaveStash(cfg, Fresh, GitPreCommitContext, pendingFiles, token, Succeeded);
      var pop := PopStash(cfg, save.state, GitPreCommitContext, Succeeded);
      var crash := Shutdown(cfg, pop.state, true, o);
      var t := save.trace + pop.trace + crash.trace;
      && StashSaves(t) == 1 && StashPops(t) == 1
      && !crash.state.stashIsApplied
      && pop.completion == Normal && crash.completion == Normal
  {
    var save := SaveStash(cfg, Fresh, GitPreCommitContext, pendingFiles, token, Succeeded);
    FreshSave(cfg, pendingFiles, token);
    AppliedPop(cfg, save.state, Succeeded);
    var pop := PopStash(cfg, save.state, GitPreCommitContext, Succeeded);
    var crash := Shutdown(cfg, pop.state, true, o);
    assert crash.trace == [];
    TraceAppend(save.trace, pop.trace);
    TraceAppend(save.trace + pop.trace, crash.trace);
  }

  /** The crash path alone: a successful save, then a shutdown with a recorded error
      before the run finishes, whose pop succeeds, pops once, exactly as completion would have. */
  lemma CrashInsteadOfCompletion(cfg: Configuration, pendingFiles: nat, token: string)
    requires cfg.ignoreUnstagedChanges && pendingFiles > 0
    ensures var save := SaveStash(cfg, Fresh, GitPreCommitContext, pendingFiles, token, Succeeded);
      var crash := Shutdown(cfg, save.state, true, Succeeded);
      var t := save.trace + crash.trace;
      && StashSaves(t) == 1 && StashPops(t) == 1
      && Lines(t) == [StashingNotice, ReapplyingNotice]
      && !crash.state.stashIsApplied
  {
    var save := SaveStash(cfg, Fresh, GitPreCommitContext, pendingFiles, token, Succeeded);
    FreshSave(cfg, pendingFiles, token);
    AppliedPop(cfg, save.state, Succeeded);
    var crash := Shutdown(cfg, save.state, true, Succeeded);
    TraceAppend(save.trace, crash.trace);
  }

  /** A failed save is reported and swallowed; the following pop does nothing. */
  lemma SaveFailureIsolated(cfg: Configuration, ctx: Context, pendingFiles: nat, token: string, e: ProcessException, o: Outcome)
    ensures var save := SaveStash(cfg, Fresh, ctx, pendingFiles, token, Failed(e));
      var pop := PopStash(cfg, save.state, ctx, o);
      var t := save.trace + pop.trace;
      && save.completion == Normal && pop.completion == Normal
      && pop.state == Fresh && pop.trace == []
      && StashPops(t) == 0
      && (IsStashEnabled(cfg, ctx) && pendingFiles > 0 ==>
            Lines(t) == [StashingNotice, StashFailedNotice(e.message)])
  {
    var save := SaveStash(cfg, Fresh, ctx, pendingFiles, token, Failed(e));
    var pop := PopStash(cfg, save.state, ctx, o);
    TraceAppend(save.trace, pop.trace);
  }

  /** A failed pop throws before clearing the flag, so `handleErrors`, run next by the
      console exception event, tries `git stash pop` a second time. */
  lemma FailedPopIsRetried(cfg: Configuration, pendingFiles: nat, token: string, e: ProcessException, o: Outcome)
    requires cfg.ignoreUnstagedChanges && pendingFiles > 0
    ensures var save := SaveStash(cfg, Fresh, GitPreCommitContext, pendingFiles, token, Succeeded);
      var pop := PopStash(cfg, save.state, GitPreCommitContext, Failed(e));
      var retry := HandleErrors(cfg, pop.state, o);
      && pop.completion == Threw(PopFailure(e))
      && pop.state.stashIsApplied
      && StashPops(save.trace + pop.trace + retry.trace) == 2
      && (o.Succeeded? <==> !retry.state.stashIsApplied)
  {
    var save := SaveStash(cfg, Fresh, GitPreCommitContext, pendingFiles, token, Succeeded);
    FreshSave(cfg, pendingFiles, token);
    AppliedPop(cfg, save.state, Failed(e));
    var pop := PopStash(cfg, save.state, GitPreCommitContext, Failed(e));
    AppliedPop(cfg, pop.state, o);
    var retry := HandleErrors(cfg, pop.state, o);
    TraceAppend(save.trace, pop.trace);
    TraceAppend(save.trace + pop.trace, retry.trace);
  }
}
