/** `check_git_branch`, run once at startup, as a decision tree over the
    outcomes of the commands it starts. */
module BranchCheck {
  import opened Text
  import opened GitCommand

  /** The commands started, in order, and the value returned. */
  datatype BranchOutcome = BranchOutcome(issued: seq<Command>, ok: bool)

  /** Starting the command raised instead of producing a process result.
      No timeout is given to these commands, so a time-out outcome can only
      stand for an exception here as well. */
  predicate Raises(o: ProcessOutcome)
  {
    !o.Exited?
  }

  /** `check_git_branch(path, branch)`: the current branch is read from the
      stripped output of `git branch --show-current` (`env(0)`, its exit code
      unused); if it differs from `branch`, `git rev-parse --verify` (`env(1)`)
      decides between creating the branch and switching to it (`env(2)`).
      Exit codes of the checkout are not looked at: the result is true
      exactly when none of the commands started raised. */
  function CheckGitBranch(branch: string, env: Oracle): (r: BranchOutcome)
    ensures 1 <= |r.issued| <= 3 && r.issued[0] == ShowCurrentBranch
    ensures r.ok <==> forall i :: 0 <= i < |r.issued| ==> !Raises(env(i))
    ensures |r.issued| == 1 <==> Raises(env(0)) || Strip(env(0).stdout) == branch
    ensures |r.issued| > 1 ==> r.issued[1] == VerifyBranch(branch)
    ensures |r.issued| == 3 <==> !Raises(env(0)) && Strip(env(0).stdout) != branch && !Raises(env(1))
    ensures |r.issued| == 3 ==>
      r.issued[2] == (if env(1).returnCode != 0 then CreateBranch(branch) else SwitchBranch(branch))
  {
    if Raises(env(0)) then BranchOutcome([ShowCurrentBranch], false)
    else if Strip(env(0).stdout) == branch then BranchOutcome([ShowCurrentBranch], true)
    else if Raises(env(1)) then BranchOutcome([ShowCurrentBranch, VerifyBranch(branch)], false)
    else
      var checkout := if env(1).returnCode != 0 then CreateBranch(branch) else SwitchBranch(branch);
      BranchOutcome([ShowCurrentBranch, VerifyBranch(branch), checkout], !Raises(env(2)))
  }

  /** A branch name as git prints it: not empty, and neither starting nor
      ending with whitespace. */
  predicate PlainName(branch: string)
  {
    branch != [] && !IsSpace(branch[0]) && !IsSpace(branch[|branch| - 1])
  }

  /** Already on the target branch, as `git branch --show-current` reports
      it (the name and a newline): nothing else is started. */
  lemma AlreadyOnBranch(branch: string, env: Oracle, code: int, err: string)
    requires PlainName(branch)
    requires env(0) == Exited(code, branch + "\n", err)
    ensures CheckGitBranch(branch, env) == BranchOutcome([ShowCurrentBranch], true)
  {
    assert IsSpace('\n');
    StripSurrounded([], branch, "\n");
    assert [] + branch + "\n" == branch + "\n";
  }

  /** On another branch: the target is verified, then created when the
      verification exits non-zero and switched to when it exits zero. */
  lemma SwitchOrCreate(branch: string, env: Oracle)
    requires !Raises(env(0)) && Strip(env(0).stdout) != branch
    requires !Raises(env(1))
    ensures CheckGitBranch(branch, env).issued ==
      [ShowCurrentBranch, VerifyBranch(branch),
       if env(1).returnCode != 0 then CreateBranch(branch) else SwitchBranch(branch)]
  {
  }

  /** The checkout's own failure is not noticed: a checkout that exits with
      an error still makes the bootstrap report success. */
  lemma FailedCheckoutStillSucceeds(env: Oracle)
    requires env(0) == Exited(0, "main\n", "")
    requires env(1) == Exited(128, "", "fatal: Needed a single revision")
    requires env(2) == Exited(1, "", "error: pathspec did not match")
    ensures CheckGitBranch("dev", env) == BranchOutcome([ShowCurrentBranch, VerifyBranch("dev"), CreateBranch("dev")], true)
  {
    assert IsSpace('\n');
    StripSurrounded([], "main", "\n");
    assert [] + "main" + "\n" == "main\n";
  }
}
