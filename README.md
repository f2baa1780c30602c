# Git auto-sync engine, modelled in Dafny

`auto_sync.py` watches a working tree and pushes every change to GitHub. A
`GitAutoSync` object has two jobs:

- its filesystem event handlers set a "pending changes" flag for every
  relevant file event;
- its `sync_to_github` cycle moves that change to the remote. The cycle
  runs `git status --porcelain`, `git add -A` and `git commit -m
  "Auto-sync: <time>"`. Then it runs `git push -u origin <branch>` up to
  four times, pausing 2, 4 and 8 seconds between failed attempts.

A rate-limit gate stops a cycle from starting less than `delay` seconds
after the start of the last cycle whose push succeeded. At startup, `check_git_branch`
makes sure the configured branch is checked out, creating it when needed.

The project has these modules:

- `Text`: Python's substring test and `str.strip()`.
- `PathFilter`: the ignore-pattern list and `should_ignore`.
- `GitCommand`: the commands issued and how `run_git_command` classifies
  the outcome of one process.
- `SyncCycle`: one call of `sync_to_github` as a pure specification
  function `Cycle`, with its push loop `PushFrom`, and the lemmas about
  them.
- `AutoSync`: the `GitAutoSync` class.
  - Its fields `lastSyncTime` and `pendingChanges` are updated in place.
  - The three event handlers are methods.
  - The cycle is the method `SyncToGitHub`, proved equal to `Cycle`. Its
    push loop is the method `PushWithRetries`, proved equal to `PushFrom`.
- `BranchCheck`: `check_git_branch` as a decision tree.

Processes, the repository and the network are not modelled. Their
behaviour is an oracle `env: nat -> ProcessOutcome`: the `i`-th command
started in one cycle (or in one branch check), counting from 0, ends in
`env(i)`. A process can end in one of three ways:

- it exits with a return code and its captured output;
- it times out;
- starting it raises an exception with a message.

The clock reading (`time.time()`) is the parameter `now`. The commit
timestamp is the parameter `stamp`. The pauses a cycle sleeps come back as
a sequence of seconds.

### Behaviour of the code worth knowing

- `auto_sync.py:113` lists `[2, 4, 8, 16]` as exponential-backoff delays.
  However, the loop sleeps only after a failed attempt that is not the
  last (`auto_sync.py:124-130`). A cycle therefore sleeps at most 2, 4 and
  8 seconds, 14 in all, and never sleeps 16 (`PushesExhausted`,
  `CycleRetryBudget`).
- A commit that fails with "nothing to commit" is logged as a benign outcome
  (`auto_sync.py:104-105`). Yet it only ends the cycle: it neither clears
  the change flag nor moves the last sync time (`StageOrCommitFailure`).
  The flag therefore stays set, and the main loop starts another cycle
  after the next pause.
- An empty status clears the change flag but leaves the last sync time
  alone (`auto_sync.py:85-88`). The next cycle is therefore not throttled
  (`NoChangesDoesNotThrottle`).
- The last sync time recorded on a successful push is the clock reading
  taken when the cycle started (`auto_sync.py:69`, `auto_sync.py:120`),
  before the commands and the pauses. The retries and slow commands
  (each may take up to 30 seconds) can therefore use up the rate-limit
  window before the push goes out (`RetriesUseUpWindow`).
- `check_git_branch` never looks at the checkout's exit code
  (`auto_sync.py:197-203`). It returns false only when starting a command
  raised (`FailedCheckoutStillSucceeds`).

## Model

| member | source | states |
|---|---|---|
| Text.Contains | auto_sync.py:44 | `p in s` holds exactly when `p` occurs at some position of `s` |
| Text.TrimStart | auto_sync.py:85 | Python's `lstrip()`; it has no contract of its own and is characterised by `TrimStartSpec` |
| Text.TrimEnd | auto_sync.py:85 | Python's `rstrip()`; it has no contract of its own and is characterised by `TrimEndSpec` |
| Text.Strip | auto_sync.py:179 | Python's `strip()`, i.e. `rstrip` after `lstrip`; it has no contract of its own and is characterised by `StripEmptyIffBlank` and `StripSurrounded` |
| Text.TrimStartSpec | auto_sync.py:85 | the leading part that `lstrip` drops is all whitespace, and what it keeps is a suffix that does not start with whitespace |
| Text.TrimEndSpec | auto_sync.py:179 | the trailing part that `rstrip` drops is all whitespace, and what it keeps is a prefix that does not end with whitespace |
| Text.StripEmptyIffBlank | auto_sync.py:85 | `stdout.strip()` is empty exactly when the output is all whitespace |
| Text.StripSurrounded | auto_sync.py:179 | surrounding whitespace is removed and a name that neither starts nor ends with whitespace survives `strip()` unchanged |
| PathFilter.PatternsOrDefault | auto_sync.py:28-38 | a missing or empty pattern list falls back to the nine defaults; any other list is used as given; the result is never empty |
| PathFilter.ShouldIgnore | auto_sync.py:40-46 | a path is ignored exactly when some pattern occurs in it as a substring |
| PathFilter.IgnoreMonotone | auto_sync.py:43-45 | appending patterns never un-ignores a path (the first match returns) |
| PathFilter.GlobPatternsAreLiteral | auto_sync.py:28-46 | `*.pyc` and `*.log` are literal strings: for a path without `*`, only the other seven defaults decide |
| PathFilter.DefaultsNeedPatternChars | auto_sync.py:28-46 | a path with none of the characters g, v, D, _ or * is never ignored by the defaults |
| PathFilter.CompiledFileNotIgnored | auto_sync.py:31-45 | `/repo/a.pyc` is not ignored by the defaults |
| PathFilter.NodeModulesSubtreeIgnored | auto_sync.py:40-46 | every path under a `node_modules` directory is ignored when that pattern is configured |
| GitCommand.RunGitCommand | auto_sync.py:48-65 | success exactly when the process exited with code 0; the streams are passed through; a timeout is a failure with stderr "Timeout"; an exception is a failure carrying its message; neither has output |
| SyncCycle.CommitFailureEnd | auto_sync.py:103-108 | a failed commit always ends the cycle; it is reported as "nothing to commit" exactly when that phrase occurs in git's error output, and as a failure otherwise |
| SyncCycle.PushFrom | auto_sync.py:112-130 | the retry loop makes 1 to 4 attempts and sleeps one fewer pause than attempts, taken in order from the delay table; it stops early only on success, and it succeeds exactly when its last attempt did |
| SyncCycle.Cycle | auto_sync.py:67-130 | one call of `sync_to_github` as a function of the two fields, the clock reading and the oracle; it has no contract of its own and is characterised by `CycleOrder`, `CycleFields`, `CycleRetryBudget`, `CycleCommandLines` and the phase lemmas below |
| SyncCycle.PushSucceedsAt | auto_sync.py:115-128 | if the pushes before attempt k fail and attempt k succeeds, exactly the attempts up to k are made, sleeping the delays before k |
| SyncCycle.PushExhausted | auto_sync.py:115-130 | if every push fails, all remaining attempts are made and every delay is slept except the last |
| SyncCycle.RateLimitGate | auto_sync.py:69-73 | too soon after the last sync: nothing is issued or slept and both fields stay as they were |
| SyncCycle.StatusPhase | auto_sync.py:80-88 | a failed status ends the cycle with both fields unchanged; a blank status clears only the change flag; nothing else is issued |
| SyncCycle.StageOrCommitFailure | auto_sync.py:94-108 | a failed staging stops before the commit and is reported as a staging failure; a failed commit stops before any push and is reported as "nothing to commit" when its stderr says so, as a commit failure otherwise; the fields are unchanged |
| SyncCycle.PushesSnoc | auto_sync.py:115-116 | a helper for the loop invariant of `PushWithRetries`: adding one push to a run of `n` pushes gives the run of `n + 1` pushes |
| SyncCycle.PushPhase | auto_sync.py:110-130 | once status, staging and commit have succeeded, the cycle's outcome is that of the retry loop |
| SyncCycle.PushSucceedsOnAttempt | auto_sync.py:112-122 | if push k (1 to 4) is the first to succeed, the cycle issues status, add, commit and k pushes, sleeps the first k-1 delays, records `now` and clears the flag |
| SyncCycle.FourthAttemptSleeps14 | auto_sync.py:112-128 | success on the fourth attempt sleeps 2, 4 and 8, 14 seconds in all |
| SyncCycle.PushesExhausted | auto_sync.py:112-130 | four failed pushes issue all seven commands and sleep 2, 4, 8 (never 16); the fields are unchanged |
| SyncCycle.DebounceAfterPush | auto_sync.py:72-122 | after a cycle that read the clock as `now` and pushed, any cycle started less than `delay` after `now` issues nothing, even with changes pending |
| SyncCycle.RetriesUseUpWindow | auto_sync.py:69-128 | the window is measured from the cycle's starting clock reading: with a delay of at most 14, after a cycle whose fourth push succeeds, a cycle started when that push goes out (`now` plus the 14 seconds slept) passes the gate and queries the status again |
| SyncCycle.NoChangesDoesNotThrottle | auto_sync.py:72-88 | after a "no changes" cycle, a later cycle passes the gate and queries the status again |
| SyncCycle.CycleOrder | auto_sync.py:67-130 | the commands issued are always a prefix of status, add, commit and four pushes; nothing is issued exactly when the gate is closed; a push only follows a non-blank status, a staging and a commit that all succeeded |
| SyncCycle.CycleCommandLines | auto_sync.py:80-116 | the shell text of what a cycle issues is `git status --porcelain`, then `git add -A`, then `git commit -m "Auto-sync: <stamp>"`, then only `git push -u origin <branch>` |
| SyncCycle.CycleRetryBudget | auto_sync.py:112-130 | the pauses are a prefix of 2, 4, 8, one fewer than the pushes, and never add up to more than 14 |
| SyncCycle.CycleFields | auto_sync.py:85-122 | a cycle never sets the change flag; the last sync time changes only on a successful push, and then to `now` with the flag cleared |
| AutoSync.NodeModulesEventIgnored | auto_sync.py:134-140 | a file event under `node_modules` does not mark the tree dirty |
| AutoSync.DirectoryEventsIgnored | auto_sync.py:136 | a directory event never marks the tree dirty |
| AutoSync.GitAutoSync.constructor | auto_sync.py:19-38 | the object stores the repository, branch and delay; it starts with last sync time 0, no pending changes, and the given patterns or the defaults |
| AutoSync.GitAutoSync.OnModified | auto_sync.py:134-140 | the flag becomes set by a file event whose path no pattern occurs in; any other event leaves it as it was; nothing else changes |
| AutoSync.GitAutoSync.OnCreated | auto_sync.py:142-148 | handled exactly like a modification |
| AutoSync.GitAutoSync.OnDeleted | auto_sync.py:150-156 | handled exactly like a modification |
| AutoSync.GitAutoSync.SyncToGitHub | auto_sync.py:67-132 | the commands issued, the pauses, where the cycle stopped and the new fields are exactly those of `Cycle`, so every lemma above holds for the method |
| AutoSync.GitAutoSync.PushWithRetries | auto_sync.py:110-130 | the pushes, pauses and outcome are those of `PushFrom`; a success records `now` and clears the flag, otherwise no field changes |
| BranchCheck.CheckGitBranch | auto_sync.py:168-206 | the current-branch query always runs first; at most three commands run; only that one runs exactly when it raised or its stripped output is the branch; the second is always the verification; a checkout runs exactly when neither earlier command raised and the branch differs, and it creates the branch when the verification exited non-zero and switches to it otherwise; the result is true exactly when none of the commands raised |
| BranchCheck.AlreadyOnBranch | auto_sync.py:179-203 | when git prints the branch name and a newline, nothing else is started and the check succeeds |
| BranchCheck.SwitchOrCreate | auto_sync.py:181-200 | on another branch, the branch is created when the verification exits non-zero and checked out when it exits zero |
| BranchCheck.FailedCheckoutStillSucceeds | auto_sync.py:194-203 | a checkout that exits with an error still makes the check report success |

## Left out

- `main`, the watchdog `Observer`, the polling loop that sleeps `delay` seconds between checks and the `KeyboardInterrupt` shutdown: threads and signals are not modelled. So the calls between an event handler and the next cycle are not modelled either, and neither is the rule that the loop starts a cycle only when the flag is set.
- `check_git_repo`: it only tests whether `.git` exists in the filesystem (a directory, or a file as in a worktree or submodule).
- Running processes, the 30-second timeout, the working directory and the shell: each command's outcome is the oracle's value.
- The `print` output and the emoji log lines: a cycle returns where it stopped (`CycleEnd`) instead.
- The `datetime.now()` formatting: the commit timestamp is the parameter `stamp`.
- `time.sleep`: the pauses are returned as a sequence of seconds, not slept, and they do not move `now`. Only the gate reads the clock; the time taken by the commands and the pauses is a caller's choice of the next `now`.
- `time.time()` returns a float; here it is an integer clock reading `now`, and `delay` is an integer.
- `str(path)`: paths are given as strings.
- Idempotence across two cycles is not stated: whether a second cycle finds changes depends on the repository, which is the oracle.
- BranchCheck.CheckGitBranch: a `TimedOut` outcome is treated as an exception, because these commands are started without a timeout.
- The push loop of `sync_to_github` is a separate method, `PushWithRetries`; the order of commands and field updates is the same as in the source.
- `rag_manager.py`, `client_test.py` and the rest of the repository are not part of this model.
