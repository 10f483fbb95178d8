/** The subprocess invoker: run_backend builds the argument vector for one
    external program and maps what fork/exec/wait report onto an int. */
module Invoker {
  import opened Wrappers

  /** What one spawn attempt comes to, as seen by the parent process. */
  datatype Spawn =
    | AllocFailure         // malloc of the argument vector returned NULL
    | ForkFailure          // fork returned a negative pid
    | WaitMismatch         // wait reaped some process other than the child
    | Exited(status: int)  // wait reaped the child; `status` is the raw wait status

  /** The value run_backend returns for a spawn attempt. Callers treat any
      nonzero value as failure, so success means exactly "the child was reaped
      with status 0"; no child at all gives -1. */
  function ResultCode(s: Spawn): (r: int)
    ensures r == 0 <==> s == Exited(0)
    ensures s.AllocFailure? || s.ForkFailure? ==> r == -1
  {
    match s
    case AllocFailure => -1
    case ForkFailure => -1
    case WaitMismatch => 1
    case Exited(status) => status
  }

  /** The variadic arguments of a call as non-NULL pointers. */
  function Lift(args: seq<string>): seq<Option<string>>
  {
    seq(|args|, i requires 0 <= i < |args| => Some(args[i]))
  }

  /** `argv` is laid out as execve expects for program `cmd` called with the
      variadic list `va`: with argc == |argv| - 1, argv[0] is `cmd`, entries
      1 .. argc-1 are the entries of `va` before its first NULL, in order, and
      argv[argc] is the NULL terminator, which is also the first NULL of `va`. */
  predicate ArgvLayout(cmd: string, va: seq<Option<string>>, argv: seq<Option<string>>)
  {
    2 <= |argv| && |argv| - 2 < |va| &&
    argv[0] == Some(cmd) &&
    argv[|argv| - 1] == None &&
    va[|argv| - 2] == None &&
    forall i :: 1 <= i < |argv| - 1 ==> va[i - 1].Some? && argv[i] == va[i - 1]
  }

  /** run_backend: counts the variadic arguments up to the NULL sentinel,
      allocates and fills the argument vector, then forks and waits. `spawn`
      stands for what malloc, fork and wait do. The vector is returned when it
      was allocated; allocation failure returns -1 before anything is forked. */
  method RunBackend(quiet: bool, cmd: string, va: seq<Option<string>>, spawn: Spawn)
    returns (r: int, argv: Option<seq<Option<string>>>)
    requires None in va
    ensures r == ResultCode(spawn)
    ensures argv.None? <==> spawn == AllocFailure
    ensures argv.Some? ==> ArgvLayout(cmd, va, argv.value)
  {
    var argc := 1;
    while true
      invariant 1 <= argc <= |va|
      invariant None in va[argc - 1..]
      invariant forall j :: 0 <= j < argc - 1 ==> va[j].Some?
      decreases |va| - argc
    {
      var arg := va[argc - 1];
      if arg.None? {
        break;
      }
      assert va[argc - 1..] == [arg] + va[argc..];
      argc := argc + 1;
    }

    if spawn == AllocFailure {
      return -1, None;
    }
    var vec := new Option<string>[argc + 1];
    vec[0] := Some(cmd);
    for i := 1 to argc + 1
      invariant vec[0] == Some(cmd)
      invariant forall j :: 1 <= j < i ==> vec[j] == va[j - 1]
    {
      vec[i] := va[i - 1];
    }
    argv := Some(vec[..]);

    if spawn.ForkFailure? {
      r := -1;
    } else if spawn.WaitMismatch? {
      r := 1;
    } else {
      r := spawn.status;
    }
  }

  /** The vector execve receives for `cmd` called with `args`: the program,
      the arguments in order, and the NULL terminator. */
  predicate ExecVector(cmd: string, args: seq<string>, argv: seq<Option<string>>)
  {
    argv == [Some(cmd)] + Lift(args) + [None]
  }

  /** For a call written with a NULL-terminated argument list, as every call
      in the backend is, the vector is exactly the program, the arguments and
      the terminator: argc is |args| + 1. */
  lemma SentinelArgv(cmd: string, args: seq<string>, argv: seq<Option<string>>)
    ensures ArgvLayout(cmd, Lift(args) + [None], argv) <==> ExecVector(cmd, args, argv)
  {
  }
}
