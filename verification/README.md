# Stash coordination of GrumPHP's pre-commit run

A Dafny model of `StashUnstagedChangesSubscriber`. This GrumPHP event subscriber hides
unstaged working-copy edits before a pre-commit run. It does this with
`git stash save --quiet --keep-index grumphp<id>`, and it puts the edits back with
`git stash pop --quiet` when the run completes or fails. A shutdown function covers
the case where the process ends with an error recorded by `error_get_last()` (of any
severity, so a warning or notice counts too): it calls `handleErrors`, which pops as well.

The subscriber's state is its two private flags, `stashIsApplied` and
`shutdownFunctionRegistered` (`StashSubscriber.Subscriber`). Each handler is a pure
function. It takes the flags and the answers of the collaborators and returns a `Step`,
which holds:

- the new flags;
- the trace of effects, in order: git commands issued, console lines written, and
  registration of the shutdown function;
- how the handler completed: normally, or by throwing a `RuntimeException`.

The collaborators' answers are inputs:

- the number of files in the pending diff;
- what each `git stash` invocation reported (success, or a `ProcessException`);
- the unique token `uniqid` appends to the `grumphp` prefix;
- the configuration flag `ignore_unstaged_changes`;
- the kind of context (pre-commit, commit-msg, run);
- whether `error_get_last()` returns an error at shutdown.

Modules:

- `Text`: prefix and substring predicates for the messages.
- `Git`: the commands, the stash arguments, the label, the process exception and its
  text.
- `Trace`: the effects and their projections. These are the commands, the lines, the
  number of registrations and the number of stash saves and pops. The lemmas show that
  the projections split over concatenation.
- `StashSubscriber`: the gate, the save and pop transitions, the three public
  handlers and the shutdown function.
- `Protocol`: any sequence of handler calls (`Replay`), and the properties that hold
  over every such sequence.
- `Scenarios`: short runs of a few calls, each stated over the joined trace.

A failed pop throws at line 155, before line 163 clears `stashIsApplied`, so the flag
stays set. `handleErrors` then issues `git stash pop` again, whether it runs from the
console-exception event or from the shutdown function (`Scenarios.FailedPopIsRetried`).

## Model

| member | source | states |
|---|---|---|
| Git.UniqueLabel | src/GrumPHP/Event/Subscriber/StashUnstagedChangesSubscriber.php:131 | the stash label starts with the `grumphp` prefix and the rest of it is exactly the generated token |
| Git.LabelsDistinct | src/GrumPHP/Event/Subscriber/StashUnstagedChangesSubscriber.php:131 | distinct tokens give distinct stash labels, so a unique token gives a label no other stash of this process shares |
| Git.Describe | src/GrumPHP/Event/Subscriber/StashUnstagedChangesSubscriber.php:157 | the exception text names the process exception class first and contains the original error message |
| StashSubscriber.PopFailure | src/GrumPHP/Event/Subscriber/StashUnstagedChangesSubscriber.php:154-160 | the escalated exception starts with the "run `git stash pop` manually" remedy, contains the original message, has code 0 and keeps the original exception as previous |
| StashSubscriber.RegisterShutdownHandler | src/GrumPHP/Event/Subscriber/StashUnstagedChangesSubscriber.php:181-197 | afterwards the function is registered; it registers once if it was not registered before and never if it was; the stash flag is untouched |
| StashSubscriber.DoSaveStash | src/GrumPHP/Event/Subscriber/StashUnstagedChangesSubscriber.php:122-140 | never throws once the diff query has answered, and never pops. A clean tree issues only the diff query, no stash command, and changes and writes nothing. Otherwise it issues exactly the diff query and one `stash save --quiet --keep-index <label>`. On success both flags end set, one status line is written and the function is registered at most once. On failure the flags are unchanged and the status line is followed by the failure line with the error message |
| StashSubscriber.DoPopStash | src/GrumPHP/Event/Subscriber/StashUnstagedChangesSubscriber.php:145-164 | with no stash applied it does nothing. Otherwise it writes one line and issues exactly one `stash pop --quiet`. Success clears the flag; failure throws the escalated exception and leaves the state, including the flag, as it was. It never saves or registers |
| StashSubscriber.GateDecides | src/GrumPHP/Event/Subscriber/StashUnstagedChangesSubscriber.php:171-174 | the gate alone decides the run handlers: on a dirty tree the start of a run saves if and only if it is open; with a stash applied the end of a run pops if and only if it is open; when open, `handleErrors` does exactly what `popStash` does; it is closed whenever unstaged changes are not ignored |
| StashSubscriber.SaveStash | src/GrumPHP/Event/Subscriber/StashUnstagedChangesSubscriber.php:81-88 | outside a pre-commit context, or with unstaged changes not ignored, nothing happens at all; otherwise it is the save. A stash is saved if and only if the gate is open and the pending diff has files, and a stash is applied afterwards if and only if one was before or that save succeeded |
| StashSubscriber.PopStash | src/GrumPHP/Event/Subscriber/StashUnstagedChangesSubscriber.php:96-103 | outside a pre-commit context, or with unstaged changes not ignored, nothing happens at all; otherwise it is the pop. A pop is issued if and only if the gate is open and a stash is applied, and the stash stays applied unless that pop succeeded |
| StashSubscriber.HandleErrors | src/GrumPHP/Event/Subscriber/StashUnstagedChangesSubscriber.php:108-115 | whatever the context, it issues a pop if and only if unstaged changes are ignored and a stash is applied; otherwise it does nothing at all |
| StashSubscriber.Shutdown | src/GrumPHP/Event/Subscriber/StashUnstagedChangesSubscriber.php:188-194 | the shutdown function acts only once registered and only when a last error exists, and then it is `handleErrors`. It issues a pop if and only if all of these hold: it is registered, a last error exists, unstaged changes are ignored and a stash is applied |
| Protocol.ApplyKeepsArmed | src/GrumPHP/Event/Subscriber/StashUnstagedChangesSubscriber.php:138-139 | no handler can leave a stash applied without the shutdown function registered, and none unregisters it |
| Protocol.ReplayKeepsArmed | src/GrumPHP/Event/Subscriber/StashUnstagedChangesSubscriber.php:138-139 | over any sequence of calls, a stash is applied only while the shutdown function is registered |
| Protocol.RegisteredAtMostOnce | src/GrumPHP/Event/Subscriber/StashUnstagedChangesSubscriber.php:183-196 | over any sequence of calls the registration flag never falls back. The shutdown function is registered once if the flag goes from unset to set, and never otherwise |
| Protocol.FreshRegistersAtMostOnce | src/GrumPHP/Event/Subscriber/StashUnstagedChangesSubscriber.php:183-196 | from construction, a subscriber registers its shutdown function at most once; it registers exactly once if and only if its flag ends set |
| Protocol.DisabledIsInert | src/GrumPHP/Event/Subscriber/StashUnstagedChangesSubscriber.php:171-174 | with unstaged changes not ignored, no sequence of calls issues a command, writes a line, registers, throws or changes a flag |
| Protocol.OtherContextsAreInert | src/GrumPHP/Event/Subscriber/StashUnstagedChangesSubscriber.php:171-174 | run start and finish deliveries outside a pre-commit context do nothing at all |
| Protocol.NoPopWithoutSave | src/GrumPHP/Event/Subscriber/StashUnstagedChangesSubscriber.php:145-149 | starting with no stash applied, a sequence of calls that issues no stash save issues no pop and ends with no stash applied |
| Protocol.CrashPathEquivalence | src/GrumPHP/Event/Subscriber/StashUnstagedChangesSubscriber.php:108-115 | in every reachable state and under either configuration, a shutdown with an error recorded by `error_get_last()` behaves exactly like the pop at the end of a pre-commit run |
| Protocol.FreshAppliedIsArmed | src/GrumPHP/Event/Subscriber/StashUnstagedChangesSubscriber.php:138-139 | after any sequence of calls from construction, a stash can be applied only if unstaged changes are ignored and the shutdown function is registered |
| Protocol.SafetyNetRestores | src/GrumPHP/Event/Subscriber/StashUnstagedChangesSubscriber.php:187-194 | after any sequence of calls from construction, a stash that is still applied has its shutdown function registered. A shutdown with an error recorded by `error_get_last()`, whose pop succeeds, then reapplies it with exactly one pop |
| Scenarios.PreCommitRoundTrip | src/GrumPHP/Event/Subscriber/StashUnstagedChangesSubscriber.php:122-164 | a pre-commit run with unstaged changes whose save and pop both succeed issues the diff query, one labelled save and one pop, in that order. It writes two status lines, registers once and throws nothing, and ends with nothing applied |
| Scenarios.PopIsIdempotent | src/GrumPHP/Event/Subscriber/StashUnstagedChangesSubscriber.php:147-163 | a successful pop followed by a second pop issues exactly one `git stash pop`; the second does nothing |
| Scenarios.CompletionThenCrashPopsOnce | src/GrumPHP/Event/Subscriber/StashUnstagedChangesSubscriber.php:145-149 | when the run's pop succeeds and a shutdown with an error recorded by `error_get_last()` follows, there is one save and one pop, nothing is applied, and neither the completion pop nor the shutdown function throws |
| Scenarios.CrashInsteadOfCompletion | src/GrumPHP/Event/Subscriber/StashUnstagedChangesSubscriber.php:108-115 | after a successful save, a shutdown with an error recorded by `error_get_last()` in place of completion, whose pop succeeds, restores the stash with the same single pop and the same lines |
| Scenarios.SaveFailureIsolated | src/GrumPHP/Event/Subscriber/StashUnstagedChangesSubscriber.php:129-136 | a failed save throws nothing and leaves the subscriber as constructed. It writes the status line and then the failure line, and the following pop does nothing |
| Scenarios.FailedPopIsRetried | src/GrumPHP/Event/Subscriber/StashUnstagedChangesSubscriber.php:151-163 | a failed pop throws the escalated exception with the flag still set, so `handleErrors` issues a second pop. That pop clears the flag exactly when it succeeds |

## Left out

- Event wiring and priorities (`getSubscribedEvents`): the handlers are called directly, in the order given to `Protocol.Replay`.
- The constructor is not modelled: it only stores the collaborators, and a fresh subscriber is `StashSubscriber.Fresh`.
- Git execution through the repository object and the working copy's pending diff: these are foreign library calls. The model takes the file count and each stash outcome as inputs.
- Console output formatting and colour tags: only the kind of line is recorded, plus the error message in the failure line.
- `uniqid` token generation: the token is an opaque input. Its uniqueness is not modelled.
- PHP runtime semantics of `register_shutdown_function` and `error_get_last`: these are reduced to the registration flag and a boolean input to `StashSubscriber.Shutdown`.
- Git.Describe: the file, line and stack-trace part of an exception's text is an opaque string. The model promises only that the text names the class and contains the message. The `catch (Exception $e)` blocks at lines 132 and 154 catch any exception from `repository->run`, but the model's failed outcome always carries Gitonomy's `ProcessException`. So the promise that the text starts with that class name covers only that class.
- StashSubscriber.DoSaveStash: a pending-diff query that fails at line 124 runs before the `try` at line 129. Its exception propagates out of `doSaveStash` and `saveStash`, and the model does not include this. The diff query always answers with a file count, so the promise "never throws" holds only once that query has answered.
- A status line write that throws is not modelled, in either `try`. In the save (line 130), the broad `catch` would report it as a failed save with no stash save issued. In the pop (line 152), it would be escalated as the "run `git stash pop` manually" `RuntimeException` without any pop issued, leaving the flag set.
- A second run start while a stash is still applied is not guarded against. The code then issues a second stash save, and the model does the same. No property is claimed about it.
