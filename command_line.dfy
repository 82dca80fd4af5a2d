/** The start-up decision of the program: install the service, uninstall it, refuse both at
    once, or run it, taken from the command-line arguments. Installing, uninstalling and running
    the service are outside the model; the installer's exit code is an oracle. */
module CommandLine {
  const InstallArguments: seq<string> := ["--install", "-i"]
  const UninstallArguments: seq<string> := ["--uninstall", "-u"]

  /** args.Intersect(flags).Any(): some argument equals some flag exactly (ordinal, so case
      matters), in any position. */
  function ContainsAny(args: seq<string>, flags: seq<string>): (b: bool)
    ensures b <==> exists i :: 0 <= i < |args| && args[i] in flags
  {
    if args == [] then false
    else args[0] in flags || ContainsAny(args[1..], flags)
  }

  /** What the program decides to do. */
  datatype Startup = RefuseConflict | ModifyService(uninstall: bool) | RunService

  /** Both kinds of flag: refuse; one kind: install or uninstall; none: run the service. */
  function Classify(args: seq<string>): (s: Startup)
    ensures s == RefuseConflict <==> ContainsAny(args, InstallArguments) && ContainsAny(args, UninstallArguments)
    ensures s.ModifyService? ==> (s.uninstall <==> ContainsAny(args, UninstallArguments))
    ensures s == RunService <==> !ContainsAny(args, InstallArguments) && !ContainsAny(args, UninstallArguments)
  {
    var install := ContainsAny(args, InstallArguments);
    var uninstall := ContainsAny(args, UninstallArguments);
    if install && uninstall then RefuseConflict
    else if install || uninstall then ModifyService(uninstall)
    else RunService
  }

  /** Main's exit code: 1 for the conflict, the installer's own code when installing or
      uninstalling, 0 after the service has run. */
  function ExitCode(args: seq<string>, modifyService: (bool, seq<string>) -> int): (code: int)
    ensures Classify(args) == RefuseConflict ==> code == 1
    ensures Classify(args).ModifyService? ==> code == modifyService(Classify(args).uninstall, args)
    ensures Classify(args) == RunService ==> code == 0
  {
    match Classify(args)
    case RefuseConflict => 1
    case ModifyService(uninstall) => modifyService(uninstall, args)
    case RunService => 0
  }

  /** A flag is found in a concatenation exactly when it is found in one of the parts. */
  lemma {:induction false} ContainsAnyAppend(a: seq<string>, b: seq<string>, flags: seq<string>)
    ensures ContainsAny(a + b, flags) == (ContainsAny(a, flags) || ContainsAny(b, flags))
  {
    if a != [] {
      assert (a + b)[1..] == a[1..] + b;
      ContainsAnyAppend(a[1..], b, flags);
    } else {
      assert a + b == b;
    }
  }

  /** The position of the flags is irrelevant: swapping two blocks of arguments never changes
      the decision. */
  lemma ClassifyIgnoresPosition(a: seq<string>, b: seq<string>)
    ensures Classify(a + b) == Classify(b + a)
  {
    ContainsAnyAppend(a, b, InstallArguments);
    ContainsAnyAppend(b, a, InstallArguments);
    ContainsAnyAppend(a, b, UninstallArguments);
    ContainsAnyAppend(b, a, UninstallArguments);
  }

  /** Flags are compared exactly: "--INSTALL" and "-I" are ordinary arguments, so the service
      runs; "-u" alone uninstalls; "-i" with "--uninstall" is refused. */
  lemma FlagExamples()
    ensures Classify(["--INSTALL", "-I"]) == RunService
    ensures Classify(["service", "-u"]) == ModifyService(true)
    ensures Classify(["-i", "--uninstall"]) == RefuseConflict
  {
    assert ["service", "-u"][1] == "-u";
    assert ["-i", "--uninstall"][0] == "-i";
    assert ["-i", "--uninstall"][1] == "--uninstall";
  }
}
