/** `sync_to_github` as a specification: one call of it as a function
    from the two mutable fields, the clock reading and the oracle to the
    commands issued, the pauses slept and the new fields. */
module SyncCycle {
  import opened Text
  import opened GitCommand

  /** The two fields the cycle reads and writes. */
  datatype SyncState = SyncState(lastSyncTime: int, pendingChanges: bool)

  /** Where a cycle stopped (what its log reports). */
  datatype CycleEnd =
    | Throttled
    | StatusFailed
    | NoChanges
    | StageFailed
    | NothingToCommit
    | CommitFailed
    | Pushed
    | PushFailed

  /** What one cycle did, in order, and the fields afterwards. */
  datatype CycleTrace = CycleTrace(issued: seq<Command>, slept: seq<int>, after: SyncState, end: CycleEnd)

  /** The push attempts of one cycle: how many were made, whether the last
      one succeeded, and the pauses slept between them. */
  datatype PushRun = PushRun(attempts: nat, succeeded: bool, slept: seq<int>)

  const MaxRetries: nat := 4
  const RetryDelays: seq<int> := [2, 4, 8, 16]

  function CommitMessage(stamp: string): string
  {
    "Auto-sync: " + stamp
  }

  function Pushes(branch: string, n: nat): (r: seq<Command>)
    ensures |r| == n && forall i :: 0 <= i < n ==> r[i] == Push(branch)
  {
    seq(n, _ => Push(branch))
  }

  /** One more push on the end of a run of pushes. */
  lemma PushesSnoc(branch: string, n: nat)
    ensures Pushes(branch, n) + [Push(branch)] == Pushes(branch, n + 1)
  {
  }

  /** Every command a cycle may issue, in the order it would issue them. */
  function FullCycle(branch: string, stamp: string): seq<Command>
  {
    [Status, StageAll, Commit(CommitMessage(stamp))] + Pushes(branch, MaxRetries)
  }

  function Sum(s: seq<int>): int
  {
    if s == [] then 0 else s[0] + Sum(s[1..])
  }

  /** How a failed commit is reported: as "nothing to commit" when git's
      error output says so, as a failure otherwise. Either way the cycle
      stops there. */
  function CommitFailureEnd(stderr: string): (e: CycleEnd)
    ensures e.NothingToCommit? || e.CommitFailed?
    ensures e.NothingToCommit? <==> Contains("nothing to commit", stderr)
  {
    if Contains("nothing to commit", stderr) then NothingToCommit else CommitFailed
  }

  /** The outcome of push attempt `a` of a retry loop whose first push is
      the `base`-th command of the cycle. */
  function Attempt(env: Oracle, base: nat, a: nat): ProcessOutcome
  {
    env(base + a)
  }

  /** Push attempts `attempt`, `attempt + 1`, ... of the retry loop, the
      push numbered `a` receiving `env(base + a)`. A failed attempt is
      followed by a pause from RetryDelays except after the last attempt.
      The pauses taken are always the next entries of RetryDelays, one
      fewer than the attempts made, and only success ends the run early. */
  function PushFrom(env: Oracle, base: nat, attempt: nat): (r: PushRun)
    requires attempt <= MaxRetries
    decreases MaxRetries - attempt
    ensures attempt == MaxRetries ==> r == PushRun(0, false, [])
    ensures attempt < MaxRetries ==>
      && 1 <= r.attempts <= MaxRetries - attempt
      && |r.slept| == r.attempts - 1
      && r.slept == RetryDelays[attempt..attempt + |r.slept|]
      && (!r.succeeded ==> r.attempts == MaxRetries - attempt)
      && (r.succeeded <==> Succeeds(Attempt(env, base, attempt + r.attempts - 1)))
  {
    if attempt == MaxRetries then PushRun(0, false, [])
    else if Succeeds(Attempt(env, base, attempt)) then PushRun(1, true, [])
    else
      var rest := PushFrom(env, base, attempt + 1);
      var pause := if attempt < MaxRetries - 1 then [RetryDelays[attempt]] else [];
      PushRun(1 + rest.attempts, rest.succeeded, pause + rest.slept)
  }

  /** One call of `sync_to_github` at clock reading `now`; `stamp` is the
      timestamp written into the commit message. The status query receives
      `env(0)`, staging `env(1)`, the commit `env(2)` and the pushes
      `env(3)`, `env(4)`, ... */
  function Cycle(branch: string, delay: int, s: SyncState, now: int, stamp: string, env: Oracle): (t: CycleTrace)
  {
    if now - s.lastSyncTime < delay then CycleTrace([], [], s, Throttled)
    else
      var status := RunGitCommand(env(0));
      if !status.success then CycleTrace([Status], [], s, StatusFailed)
      else if IsBlank(status.stdout) then
        CycleTrace([Status], [], s.(pendingChanges := false), NoChanges)
      else
        var staged := RunGitCommand(env(1));
        if !staged.success then CycleTrace([Status, StageAll], [], s, StageFailed)
        else
          var commit := Commit(CommitMessage(stamp));
          var committed := RunGitCommand(env(2));
          if !committed.success then
            CycleTrace([Status, StageAll, commit], [], s, CommitFailureEnd(committed.stderr))
          else
            var p := PushFrom(env, 3, 0);
            var after := if p.succeeded then SyncState(now, false) else s;
            CycleTrace([Status, StageAll, commit] + Pushes(branch, p.attempts), p.slept, after,
                       if p.succeeded then Pushed else PushFailed)
  }

  /** The retry loop started at attempt `a`: when the pushes before attempt
      `k` fail and attempt `k` succeeds, exactly `k - a + 1` pushes go out
      and the pauses are the delays numbered `a` to `k - 1`. */
  lemma PushSucceedsAt(env: Oracle, base: nat, a: nat, k: nat)
    requires a <= k < MaxRetries
    requires forall j :: a <= j < k ==> !Succeeds(Attempt(env, base, j))
    requires Succeeds(Attempt(env, base, k))
    ensures PushFrom(env, base, a) == PushRun(k - a + 1, true, RetryDelays[a..k])
  {
  }

  /** The retry loop started at attempt `a` when every push fails: all the
      remaining attempts are made and every delay after the `a`-th is
      slept except the last one. */
  lemma PushExhausted(env: Oracle, base: nat, a: nat)
    requires a < MaxRetries
    requires forall j :: a <= j < MaxRetries ==> !Succeeds(Attempt(env, base, j))
    ensures PushFrom(env, base, a) == PushRun(MaxRetries - a, false, RetryDelays[a..MaxRetries - 1])
  {
  }

  /** The rate-limit gate: too soon after the last sync, nothing is issued,
      nothing is slept and neither field changes. */
  lemma RateLimitGate(branch: string, delay: int, s: SyncState, now: int, stamp: string, env: Oracle)
    requires now - s.lastSyncTime < delay
    ensures Cycle(branch, delay, s, now, stamp, env) == CycleTrace([], [], s, Throttled)
  {
  }

  /** A status query that fails ends the cycle after that one command with
      both fields unchanged; a successful one with blank output clears the
      change flag, keeps the last sync time and issues nothing more. */
  lemma StatusPhase(branch: string, delay: int, s: SyncState, now: int, stamp: string, env: Oracle)
    requires now - s.lastSyncTime >= delay
    requires !Succeeds(env(0)) || IsBlank(RunGitCommand(env(0)).stdout)
    ensures var t := Cycle(branch, delay, s, now, stamp, env);
      && t.issued == [Status] && t.slept == []
      && t.after == (if Succeeds(env(0)) then SyncState(s.lastSyncTime, false) else s)
      && t.end == (if Succeeds(env(0)) then NoChanges else StatusFailed)
  {
  }

  /** A failed staging ends the cycle without a commit; a failed commit,
      whether or not its error says "nothing to commit", ends it without a
      push; in both cases neither field changes. */
  lemma StageOrCommitFailure(branch: string, delay: int, s: SyncState, now: int, stamp: string, env: Oracle)
    requires now - s.lastSyncTime >= delay
    requires Succeeds(env(0)) && !IsBlank(RunGitCommand(env(0)).stdout)
    requires !Succeeds(env(1)) || !Succeeds(env(2))
    ensures var t := Cycle(branch, delay, s, now, stamp, env);
      && t.issued == (if Succeeds(env(1)) then [Status, StageAll, Commit(CommitMessage(stamp))] else [Status, StageAll])
      && t.slept == [] && t.after == s
      && t.end == (if !Succeeds(env(1)) then StageFailed
                   else if Contains("nothing to commit", RunGitCommand(env(2)).stderr) then NothingToCommit
                   else CommitFailed)
  {
  }

  /** Everything before the push succeeded. */
  predicate ReadyToPush(s: SyncState, delay: int, now: int, env: Oracle)
  {
    && now - s.lastSyncTime >= delay
    && Succeeds(env(0)) && !IsBlank(RunGitCommand(env(0)).stdout)
    && Succeeds(env(1)) && Succeeds(env(2))
  }

  /** Once status, staging and commit have succeeded, the cycle is decided
      by its push phase alone. */
  lemma PushPhase(branch: string, delay: int, s: SyncState, now: int, stamp: string, env: Oracle)
    requires ReadyToPush(s, delay, now, env)
    ensures var run := PushFrom(env, 3, 0);
      Cycle(branch, delay, s, now, stamp, env) ==
        CycleTrace([Status, StageAll, Commit(CommitMessage(stamp))] + Pushes(branch, run.attempts), run.slept,
                   if run.succeeded then SyncState(now, false) else s,
                   if run.succeeded then Pushed else PushFailed)
  {
  }

  /** The push succeeds on attempt `k` (1 to 4): exactly `k` pushes are
      issued, the first `k - 1` delays are slept, and the cycle records
      `now` as the last sync time and clears the change flag. */
  lemma PushSucceedsOnAttempt(branch: string, delay: int, s: SyncState, now: int, stamp: string, env: Oracle, k: nat)
    requires ReadyToPush(s, delay, now, env)
    requires 1 <= k <= MaxRetries
    requires forall j :: 0 <= j < k - 1 ==> !Succeeds(Attempt(env, 3, j))
    requires Succeeds(Attempt(env, 3, k - 1))
    ensures Cycle(branch, delay, s, now, stamp, env) ==
      CycleTrace([Status, StageAll, Commit(CommitMessage(stamp))] + Pushes(branch, k),
                 RetryDelays[..k - 1], SyncState(now, false), Pushed)
  {
    PushSucceedsAt(env, 3, 0, k - 1);
  }

  /** Success on the fourth attempt: the cycle slept 2, 4 and 8, in all 14. */
  lemma FourthAttemptSleeps14(branch: string, delay: int, s: SyncState, now: int, stamp: string, env: Oracle)
    requires ReadyToPush(s, delay, now, env)
    requires !Succeeds(env(3)) && !Succeeds(env(4)) && !Succeeds(env(5)) && Succeeds(env(6))
    ensures var t := Cycle(branch, delay, s, now, stamp, env);
      t.slept == [2, 4, 8] && Sum(t.slept) == 14 && t.end == Pushed && t.after == SyncState(now, false)
  {
    PushSucceedsOnAttempt(branch, delay, s, now, stamp, env, 4);
    assert RetryDelays[..3] == [2, 4, 8];
    assert Sum([8]) == 8 && Sum([4, 8]) == 12;
  }

  /** Every push fails: four pushes, pauses of 2, 4 and 8 (14 in all), the
      delay 16 is never slept, and neither field changes. */
  lemma PushesExhausted(branch: string, delay: int, s: SyncState, now: int, stamp: string, env: Oracle)
    requires ReadyToPush(s, delay, now, env)
    requires forall j :: 0 <= j < MaxRetries ==> !Succeeds(Attempt(env, 3, j))
    ensures var t := Cycle(branch, delay, s, now, stamp, env);
      && t.issued == FullCycle(branch, stamp)
      && t.slept == [2, 4, 8] && Sum(t.slept) == 14 && 16 !in t.slept
      && t.after == s && t.end == PushFailed
  {
    PushExhausted(env, 3, 0);
    assert RetryDelays[0..3] == [2, 4, 8];
    assert Sum([8]) == 8 && Sum([4, 8]) == 12;
  }

  /** Debounce after a push: once a cycle at `now` has pushed, any cycle
      started less than `delay` later is throttled, whatever the change
      flag says. */
  lemma DebounceAfterPush(branch: string, delay: int, s: SyncState, now: int, stamp: string, env: Oracle,
                          later: int, stamp': string, env': Oracle)
    requires Cycle(branch, delay, s, now, stamp, env).end == Pushed
    requires later - now < delay
    ensures var s' := Cycle(branch, delay, s, now, stamp, env).after;
      Cycle(branch, delay, s'.(pendingChanges := true), later, stamp', env').issued == []
  {
  }

  /** The recorded sync time is the clock reading taken when the cycle
      started, before its pauses: with a delay of at most 14, a cycle whose
      fourth push succeeds has used up its whole window by the time that
      push goes out, so a cycle started at that moment passes the gate. */
  lemma RetriesUseUpWindow(branch: string, delay: int, s: SyncState, now: int, stamp: string, env: Oracle,
                           stamp': string, env': Oracle)
    requires delay <= 14
    requires ReadyToPush(s, delay, now, env)
    requires !Succeeds(env(3)) && !Succeeds(env(4)) && !Succeeds(env(5)) && Succeeds(env(6))
    ensures var t := Cycle(branch, delay, s, now, stamp, env);
      var next := Cycle(branch, delay, t.after.(pendingChanges := true), now + Sum(t.slept), stamp', env');
      next.issued != [] && next.issued[0] == Status
  {
    FourthAttemptSleeps14(branch, delay, s, now, stamp, env);
  }

  /** A cycle that found nothing to sync does not restart the rate-limit
      window: a cycle at any later time passes the gate and queries the
      status again. */
  lemma NoChangesDoesNotThrottle(branch: string, delay: int, s: SyncState, now: int, stamp: string, env: Oracle,
                                 later: int, stamp': string, env': Oracle)
    requires Cycle(branch, delay, s, now, stamp, env).end == NoChanges
    requires later >= now
    ensures var s' := Cycle(branch, delay, s, now, stamp, env).after;
      Cycle(branch, delay, s', later, stamp', env').issued[..1] == [Status]
  {
    var t := Cycle(branch, delay, s, now, stamp, env);
    CycleOrder(branch, delay, s, now, stamp, env);
    CycleFields(branch, delay, s, now, stamp, env);
    CycleOrder(branch, delay, t.after, later, stamp', env');
  }

  /** Command order: the commands issued are always a prefix of status,
      stage, commit and four pushes; nothing is issued exactly when the
      rate-limit gate is closed; and a push is issued only after a
      non-empty status, a staging and a commit that all succeeded. */
  lemma CycleOrder(branch: string, delay: int, s: SyncState, now: int, stamp: string, env: Oracle)
    ensures var t := Cycle(branch, delay, s, now, stamp, env);
      && t.issued <= FullCycle(branch, stamp)
      && (t.issued == [] <==> now - s.lastSyncTime < delay)
      && (t.end == Throttled <==> t.issued == [])
      && (|t.issued| > 3 ==>
            && Succeeds(env(0)) && !IsBlank(RunGitCommand(env(0)).stdout)
            && Succeeds(env(1)) && Succeeds(env(2)))
  {
  }

  /** The shell text of what a cycle issues: `git status --porcelain`,
      `git add -A`, `git commit -m "Auto-sync: <stamp>"`, and then only
      `git push -u origin <branch>`. */
  lemma CycleCommandLines(branch: string, delay: int, s: SyncState, now: int, stamp: string, env: Oracle)
    ensures CycleLines(branch, stamp, Cycle(branch, delay, s, now, stamp, env).issued)
  {
    CycleOrder(branch, delay, s, now, stamp, env);
    PrefixLines(branch, stamp, Cycle(branch, delay, s, now, stamp, env).issued);
  }

  /** The shell text of each position of a cycle's command sequence. */
  predicate CycleLines(branch: string, stamp: string, issued: seq<Command>)
  {
    && (|issued| > 0 ==> CommandLine(issued[0]) == "git status --porcelain")
    && (|issued| > 1 ==> CommandLine(issued[1]) == "git add -A")
    && (|issued| > 2 ==> CommandLine(issued[2]) == "git commit -m \"Auto-sync: " + stamp + "\"")
    && (forall i :: 3 <= i < |issued| ==> CommandLine(issued[i]) == "git push -u origin " + branch)
  }

  lemma PrefixLines(branch: string, stamp: string, issued: seq<Command>)
    requires issued <= FullCycle(branch, stamp)
    ensures CycleLines(branch, stamp, issued)
  {
    var full := FullCycle(branch, stamp);
    assert forall i :: 3 <= i < |issued| ==> issued[i] == full[i] == Push(branch);
  }

  /** The retry budget of any cycle: pauses happen only between pushes, one
      fewer than the pushes issued, taken from the front of the delay
      table, so a cycle never sleeps the last delay nor more than 14. */
  lemma CycleRetryBudget(branch: string, delay: int, s: SyncState, now: int, stamp: string, env: Oracle)
    ensures var t := Cycle(branch, delay, s, now, stamp, env);
      && t.slept <= RetryDelays[..MaxRetries - 1]
      && |t.slept| == (if |t.issued| > 3 then |t.issued| - 4 else 0)
      && Sum(t.slept) <= 14
  {
    var t := Cycle(branch, delay, s, now, stamp, env);
    if |t.issued| > 3 {
      var p := PushFrom(env, 3, 0);
      assert t.slept == p.slept == RetryDelays[0..|p.slept|];
    }
    var n := |t.slept|;
    assert t.slept == [2, 4, 8][..n];
    if n == 1 {
      assert t.slept == [2];
    } else if n == 2 {
      assert t.slept == [2, 4] && Sum([4]) == 4;
    } else if n == 3 {
      assert t.slept == [2, 4, 8] && Sum([4, 8]) == 12;
    }
  }

  /** How a cycle changes the two fields: it may clear the change flag but
      never sets it, and the last sync time moves only when a push
      succeeded, and then to `now` with the flag cleared. */
  lemma CycleFields(branch: string, delay: int, s: SyncState, now: int, stamp: string, env: Oracle)
    ensures var t := Cycle(branch, delay, s, now, stamp, env);
      && (t.after.pendingChanges ==> s.pendingChanges)
      && (t.end == Pushed ==> t.after == SyncState(now, false))
      && (t.end != Pushed ==> t.after.lastSyncTime == s.lastSyncTime)
  {
  }
}
