/** The observable effects of the subscriber, recorded in the order they
    happen: git commands issued, console lines written, and the registration
    of the shutdown function. Projections pick one kind of effect out. */
module Trace {
  import opened Git

  /** The kinds of console line the subscriber writes; colour tags are not modelled. */
  datatype Line =
    | StashingNotice                    // "Detected unstaged changes... Stashing them!"
    | StashFailedNotice(reason: string) // "Failed stashing changes: <reason>"
    | ReapplyingNotice                  // "Reapplying unstaged changes from stash."

  datatype Effect =
    | Run(command: Command)
    | Write(line: Line)
    | RegisterShutdownFunction

  /** The git commands of a trace, in order. */
  function Commands(t: seq<Effect>): (r: seq<Command>)
  {
    if t == [] then []
    else (if t[0].Run? then [t[0].command] else []) + Commands(t[1..])
  }

  /** The console lines of a trace, in order. */
  function Lines(t: seq<Effect>): (r: seq<Line>)
  {
    if t == [] then []
    else (if t[0].Write? then [t[0].line] else []) + Lines(t[1..])
  }

  /** How many times a trace registers the shutdown function. */
  function Registrations(t: seq<Effect>): nat
  {
    if t == [] then 0
    else (if t[0].RegisterShutdownFunction? then 1 else 0) + Registrations(t[1..])
  }

  /** How many of the commands are `git stash <sub> ...`. */
  function CountStash(cs: seq<Command>, sub: string): nat
  {
    if cs == [] then 0
    else (if IsStash(cs[0], sub) then 1 else 0) + CountStash(cs[1..], sub)
  }

  /** Number of `git stash save` invocations in a trace. */
  function StashSaves(t: seq<Effect>): nat
  {
    CountStash(Commands(t), "save")
  }

  /** Number of `git stash pop` invocations in a trace. */
  function StashPops(t: seq<Effect>): nat
  {
    CountStash(Commands(t), "pop")
  }

  lemma {:induction false} CommandsAppend(a: seq<Effect>, b: seq<Effect>)
    ensures Commands(a + b) == Commands(a) + Commands(b)
  {
    if a == [] {
      assert a + b == b;
    } else {
      var h := if a[0].Run? then [a[0].command] else [];
      assert (a + b)[0] == a[0];
      assert (a + b)[1..] == a[1..] + b;
      assert Commands(a + b) == h + Commands(a[1..] + b);
      CommandsAppend(a[1..], b);
      assert Commands(a) == h + Commands(a[1..]);
    }
  }


  lemma {:induction false} LinesAppend(a: seq<Effect>, b: seq<Effect>)
    ensures Lines(a + b) == Lines(a) + Lines(b)
  {
    if a == [] {
      assert a + b == b;
    } else {
      var h := if a[0].Write? then [a[0].line] else [];
      assert (a + b)[0] == a[0];
      assert (a + b)[1..] == a[1..] + b;
      assert Lines(a + b) == h + Lines(a[1..] + b);
      LinesAppend(a[1..], b);
      assert Lines(a) == h + Lines(a[1..]);
    }
  }


  lemma {:induction false} RegistrationsAppend(a: seq<Effect>, b: seq<Effect>)
    ensures Registrations(a + b) == Registrations(a) + Registrations(b)
  {
    if a == [] {
      assert a + b == b;
    } else {
      assert (a + b)[1..] == a[1..] + b;
      RegistrationsAppend(a[1..], b);
    }
  }

  lemma {:induction false} CountStashAppend(a: seq<Command>, b: seq<Command>, sub: string)
    ensures CountStash(a + b, sub) == CountStash(a, sub) + CountStash(b, sub)
  {
    if a == [] {
      assert a + b == b;
    } else {
      assert (a + b)[1..] == a[1..] + b;
      CountStashAppend(a[1..], b, sub);
    }
  }

  /** Every count over a trace splits over concatenation. */
  lemma TraceAppend(a: seq<Effect>, b: seq<Effect>)
    ensures Commands(a + b) == Commands(a) + Commands(b)
    ensures Lines(a + b) == Lines(a) + Lines(b)
    ensures Registrations(a + b) == Registrations(a) + Registrations(b)
    ensures StashSaves(a + b) == StashSaves(a) + StashSaves(b)
    ensures StashPops(a + b) == StashPops(a) + StashPops(b)
  {
    CommandsAppend(a, b);
    LinesAppend(a, b);
    RegistrationsAppend(a, b);
    CountStashAppend(Commands(a), Commands(b), "save");
    CountStashAppend(Commands(a), Commands(b), "pop");
  }

  /** The projections of a one-effect trace. */
  lemma Single(e: Effect)
    ensures Commands([e]) == (if e.Run? then [e.command] else [])
    ensures Lines([e]) == (if e.Write? then [e.line] else [])
    ensures Registrations([e]) == (if e.RegisterShutdownFunction? then 1 else 0)
  {
    assert [e][0] == e;
    assert [e][1..] == [];
  }

  /** Counting stash subcommands in a list of at most one command. */
  lemma CountOne(cs: seq<Command>, sub: string)
    requires |cs| <= 1
    ensures CountStash(cs, sub) == (if |cs| == 1 && IsStash(cs[0], sub) then 1 else 0)
  {
    if |cs| == 1 {
      assert cs[1..] == [];
    }
  }

  /** Appending one effect extends exactly the projection that effect belongs to. */
  lemma Snoc(t: seq<Effect>, e: Effect)
    ensures Commands(t + [e]) == Commands(t) + (if e.Run? then [e.command] else [])
    ensures Lines(t + [e]) == Lines(t) + (if e.Write? then [e.line] else [])
    ensures Registrations(t + [e]) == Registrations(t) + (if e.RegisterShutdownFunction? then 1 else 0)
    ensures StashSaves(t + [e]) == StashSaves(t) + (if e.Run? && IsStash(e.command, "save") then 1 else 0)
    ensures StashPops(t + [e]) == StashPops(t) + (if e.Run? && IsStash(e.command, "pop") then 1 else 0)
  {
    TraceAppend(t, [e]);
    Single(e);
    CountOne(Commands([e]), "save");
    CountOne(Commands([e]), "pop");
  }
}
