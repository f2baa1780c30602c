/** The sync engine object: the change flag set by the filesystem event
    handlers and the sync cycle that consumes it, updating the object's
    fields in place. */
module AutoSync {
  import opened Wrappers
  import opened Text
  import opened PathFilter
  import opened GitCommand
  import opened SyncCycle

  /** The branch and delay used when none are given. */
  const DefaultBranch: string := "claude/local-integration-setup-011CV5X2DN6gjH1SzxsWbo7T"
  const DefaultDelay: int := 5

  /** A filesystem event as delivered by the watcher. */
  datatype FileEvent = FileEvent(srcPath: string, isDirectory: bool)

  /** An event marks the tree dirty when it is about a file whose path no
      ignore pattern occurs in. */
  predicate MarksDirty(patterns: seq<string>, ev: FileEvent)
  {
    !ev.isDirectory && !ShouldIgnore(patterns, ev.srcPath)
  }

  /** A change under a `node_modules` directory leaves the flag alone. */
  lemma NodeModulesEventIgnored()
    ensures !MarksDirty([".git", "node_modules"], FileEvent("/repo/node_modules/x.js", false))
  {
    NodeModulesSubtreeIgnored([".git", "node_modules"], "/repo", "x.js");
    assert "/repo" + "/node_modules/" + "x.js" == "/repo/node_modules/x.js";
  }

  /** Directory events never mark the tree dirty, whatever their path. */
  lemma DirectoryEventsIgnored(patterns: seq<string>, path: string)
    ensures !MarksDirty(patterns, FileEvent(path, true))
  {
  }

  class GitAutoSync {
    const repoPath: string
    const branch: string
    const delay: int
    const ignorePatterns: seq<string>
    var lastSyncTime: int
    var pendingChanges: bool

    /** The two mutable fields, as the sync cycle's specification sees them. */
    function State(): SyncState
      reads this
    {
      SyncState(lastSyncTime, pendingChanges)
    }

    constructor (repoPath: string, branch: string, ignorePatterns: Option<seq<string>>, delay: int)
      ensures this.repoPath == repoPath && this.branch == branch && this.delay == delay
      ensures this.ignorePatterns == PatternsOrDefault(ignorePatterns)
      ensures State() == SyncState(0, false)
    {
      this.repoPath := repoPath;
      this.branch := branch;
      this.delay := delay;
      this.lastSyncTime := 0;
      this.pendingChanges := false;
      this.ignorePatterns := PatternsOrDefault(ignorePatterns);
    }

    /** A file was modified: a relevant event sets the flag, anything else
        leaves it; no other field changes. */
    method OnModified(ev: FileEvent)
      modifies this`pendingChanges
      ensures pendingChanges == (old(pendingChanges) || MarksDirty(ignorePatterns, ev))
    {
      if ev.isDirectory || ShouldIgnore(ignorePatterns, ev.srcPath) {
        return;
      }
      pendingChanges := true;
    }

    /** A file was created; handled exactly as a modification. */
    method OnCreated(ev: FileEvent)
      modifies this`pendingChanges
      ensures pendingChanges == (old(pendingChanges) || MarksDirty(ignorePatterns, ev))
    {
      if ev.isDirectory || ShouldIgnore(ignorePatterns, ev.srcPath) {
        return;
      }
      pendingChanges := true;
    }

    /** A file was deleted; handled exactly as a modification. */
    method OnDeleted(ev: FileEvent)
      modifies this`pendingChanges
      ensures pendingChanges == (old(pendingChanges) || MarksDirty(ignorePatterns, ev))
    {
      if ev.isDirectory || ShouldIgnore(ignorePatterns, ev.srcPath) {
        return;
      }
      pendingChanges := true;
    }

    /** One synchronisation cycle at clock reading `now`. Returns the
        commands issued, in order, the pauses slept and where the cycle
        stopped; the fields change exactly as the specification `Cycle`
        says (whose lemmas state the rate limit, the short-circuits and the
        retry bound). */
    method SyncToGitHub(now: int, stamp: string, env: Oracle) returns (issued: seq<Command>, slept: seq<int>, end: CycleEnd)
      modifies this`lastSyncTime, this`pendingChanges
      ensures CycleTrace(issued, slept, State(), end) == Cycle(branch, delay, old(State()), now, stamp, env)
    {
      issued, slept := [], [];
      if now - lastSyncTime < delay {
        end := Throttled;
        return;
      }

      issued := issued + [Status];
      var status := RunGitCommand(env(0));
      if !status.success {
        end := StatusFailed;
        return;
      }
      StripEmptyIffBlank(status.stdout);
      if Strip(status.stdout) == [] {
        pendingChanges := false;
        end := NoChanges;
        return;
      }

      issued := issued + [StageAll];
      var staged := RunGitCommand(env(1));
      if !staged.success {
        end := StageFailed;
        return;
      }

      issued := issued + [Commit(CommitMessage(stamp))];
      var committed := RunGitCommand(env(2));
      if !committed.success {
        end := CommitFailureEnd(committed.stderr);
        return;
      }

      assert issued == [Status, StageAll, Commit(CommitMessage(stamp))];
      PushPhase(branch, delay, State(), now, stamp, env);
      var pushes, pauses, pushed := PushWithRetries(now, env, 3);
      issued, slept := issued + pushes, pauses;
      end := if pushed then Pushed else PushFailed;
    }

    /** The push phase of a cycle: `git push -u origin <branch>` up to four
        times, the first push receiving `env(base)`, pausing after each
        failure but the last by the next entry of RetryDelays. A successful
        push records `now` as the last sync time and clears the change flag;
        if every push fails neither field changes. */
    method PushWithRetries(now: int, env: Oracle, base: nat) returns (pushes: seq<Command>, slept: seq<int>, pushed: bool)
      modifies this`lastSyncTime, this`pendingChanges
      ensures var run := PushFrom(env, base, 0);
        pushes == Pushes(branch, run.attempts) && slept == run.slept && pushed == run.succeeded
      ensures State() == if pushed then SyncState(now, false) else old(State())
    {
      pushes, slept, pushed := [], [], false;
      for attempt := 0 to MaxRetries
        invariant pushes == Pushes(branch, attempt)
        invariant State() == old(State())
        invariant var rest := PushFrom(env, base, attempt);
          PushFrom(env, base, 0) == PushRun(attempt + rest.attempts, rest.succeeded, slept + rest.slept)
      {
        PushesSnoc(branch, attempt);
        pushes := pushes + [Push(branch)];
        var result := RunGitCommand(Attempt(env, base, attempt));
        if result.success {
          lastSyncTime := now;
          pendingChanges := false;
          pushed := true;
          return;
        }
        if attempt < MaxRetries - 1 {
          slept := slept + [RetryDelays[attempt]];
        }
      }
    }
  }

  /** A client run of the event handlers: with the default patterns, a
      change to a compiled Python file marks the tree dirty, because the
      `*.pyc` pattern is literal, while a change inside `.git` does not. */
  method EventScenario()
  {
    var sync := new GitAutoSync("/repo", DefaultBranch, None, DefaultDelay);
    assert sync.ignorePatterns[0] == ".git";
    SliceContained("/repo/.git/index", 6, 10);
    assert "/repo/.git/index"[6..10] == ".git";
    sync.OnModified(FileEvent("/repo/.git/index", false));
    assert !sync.pendingChanges;
    CompiledFileNotIgnored();
    sync.OnCreated(FileEvent("/repo/a.pyc", false));
    assert sync.pendingChanges;
  }

  /** A client run of one cycle: when the remote refuses the first three
      pushes, the cycle pushes on its fourth attempt after sleeping 2, 4
      and 8, records the clock reading and clears the change flag. */
  method RetryScenario(sync: GitAutoSync, now: int, stamp: string, env: Oracle)
    requires now - sync.lastSyncTime >= sync.delay
    requires env(0) == Exited(0, " M a.pyc\n", "")
    requires Succeeds(env(1)) && Succeeds(env(2))
    requires !Succeeds(env(3)) && !Succeeds(env(4)) && !Succeeds(env(5)) && Succeeds(env(6))
    modifies sync
  {
    assert " M a.pyc\n"[1] == 'M' && !IsSpace('M');
    FourthAttemptSleeps14(sync.branch, sync.delay, sync.State(), now, stamp, env);
    var issued, slept, end := sync.SyncToGitHub(now, stamp, env);
    assert slept == [2, 4, 8] && end == Pushed;
    assert sync.lastSyncTime == now && !sync.pendingChanges;
  }
}
