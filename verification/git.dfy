/** The git collaborator as the subscriber sees it: the commands it issues
    through the repository object and the outcome each invocation reports.
    Nothing here executes git; outcomes are inputs to the model. */
module Git {
  import opened Text

  /** A git invocation issued by the subscriber. */
  datatype Command =
    | DiffPending               // the working-copy query for unstaged changes
    | Stash(args: seq<string>)  // `git stash <args>`

  /** The exception the repository raises when a git process fails.
      `origin` stands for the file, line and stack trace part of its text. */
  datatype ProcessException = ProcessException(message: string, origin: string)

  /** What one `git stash` invocation reported. */
  datatype Outcome = Succeeded | Failed(error: ProcessException)

  const ProcessExceptionClass := "Gitonomy\\Git\\Exception\\ProcessException"

  /** The prefix `uniqid` puts in front of its generated token. */
  const LabelPrefix := "grumphp"

  /** The stash message: the fixed prefix followed by the opaque unique token. */
  function UniqueLabel(token: string): (tag: string)
    ensures StartsWith(tag, LabelPrefix)
    ensures |tag| == |LabelPrefix| + |token|
    ensures tag[|LabelPrefix|..] == token
  {
    StartsWithAppend(LabelPrefix, token);
    LabelPrefix + token
  }

  /** Distinct tokens give distinct stash labels. */
  lemma LabelsDistinct(a: string, b: string)
    requires a != b
    ensures UniqueLabel(a) != UniqueLabel(b)
  {
    assert UniqueLabel(a)[|LabelPrefix|..] == a;
    assert UniqueLabel(b)[|LabelPrefix|..] == b;
  }

  /** Arguments of the stash that hides unstaged edits and keeps the index. */
  function SaveArgs(tag: string): seq<string>
  {
    ["save", "--quiet", "--keep-index", tag]
  }

  /** Arguments of the stash pop that reapplies them. */
  const PopArgs: seq<string> := ["pop", "--quiet"]

  /** The subcommand a stash invocation runs ("save", "pop", ...). */
  predicate IsStash(c: Command, sub: string)
  {
    c.Stash? && |c.args| > 0 && c.args[0] == sub
  }

  /** The text of an exception as the runtime renders it: class, message and origin. */
  function Describe(e: ProcessException): (text: string)
    ensures Contains(text, e.message)
    ensures StartsWith(text, ProcessExceptionClass)
  {
    var head := ProcessExceptionClass + ": ";
    var tail := " in " + e.origin;
    ContainsInfix(head, e.message, tail);
    StartsWithAppend(ProcessExceptionClass, ": " + e.message + tail);
    assert head + e.message + tail == ProcessExceptionClass + (": " + e.message + tail);
    head + e.message + tail
  }
}
