/** `run_git_command`: the commands the engine issues and how the outcome
    of running one is classified. Running a process is outside the model;
    its outcome is supplied by an oracle. */
module GitCommand {

  /** What running one external command can end in: the process exits with
      a return code and its two captured streams, it exceeds the 30-second
      bound, or starting it raises an exception with a message. */
  datatype ProcessOutcome =
    | Exited(returnCode: int, stdout: string, stderr: string)
    | TimedOut
    | Raised(message: string)

  /** The oracle standing for the repository and the network: the `i`-th
      command issued in one cycle (counting from 0) ends in `env(i)`. */
  type Oracle = nat -> ProcessOutcome

  /** The `(success, stdout, stderr)` triple of `run_git_command`. */
  datatype CommandResult = CommandResult(success: bool, stdout: string, stderr: string)

  /** The commands issued; `CommandLine` gives the shell text of each. */
  datatype Command =
    | Status
    | StageAll
    | Commit(message: string)
    | Push(branch: string)
    | ShowCurrentBranch
    | VerifyBranch(branch: string)
    | CreateBranch(branch: string)
    | SwitchBranch(branch: string)

  function CommandLine(c: Command): string
  {
    match c
    case Status => "git status --porcelain"
    case StageAll => "git add -A"
    case Commit(m) => "git commit -m \"" + m + "\""
    case Push(b) => "git push -u origin " + b
    case ShowCurrentBranch => "git branch --show-current"
    case VerifyBranch(b) => "git rev-parse --verify " + b
    case CreateBranch(b) => "git checkout -b " + b
    case SwitchBranch(b) => "git checkout " + b
  }

  /** `run_git_command`'s classification: success is exactly a zero exit
      code and the streams are passed through; a timeout becomes a failure
      with stderr "Timeout", any other exception a failure carrying the
      exception's message; neither has output. */
  function RunGitCommand(o: ProcessOutcome): (r: CommandResult)
    ensures r.success <==> o.Exited? && o.returnCode == 0
    ensures o.Exited? ==> r.stdout == o.stdout && r.stderr == o.stderr
    ensures !o.Exited? ==> r.stdout == [] && !r.success
    ensures o.TimedOut? ==> r.stderr == "Timeout"
    ensures o.Raised? ==> r.stderr == o.message
  {
    match o
    case Exited(code, out, err) => CommandResult(code == 0, out, err)
    case TimedOut => CommandResult(false, "", "Timeout")
    case Raised(msg) => CommandResult(false, "", msg)
  }

  /** The command ended successfully. */
  predicate Succeeds(o: ProcessOutcome)
  {
    RunGitCommand(o).success
  }
}
