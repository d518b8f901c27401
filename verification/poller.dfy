/**
 * The status poller of `wait_for_deployment`. The remote status service is
 * the finite sequence of codes it answers, one per poll; a poll after the last
 * answer stands for the status query raising. Time is whole seconds since the
 * wait began, and each iteration sleeps the fixed interval before it queries.
 */
module Poller {
  import opened Basics
  import opened DeployStatus

  /** Seconds slept before each status query. */
  const PollIntervalSeconds: nat := 10

  /** How one wait ends; `QueryFailed` stands for the query raising, which is reported and re-raised. */
  datatype PollOutcome =
    | Succeeded(status: string)
    | Failed(status: string)
    | TimedOut(deploymentId: string, minutes: int)
    | QueryFailed(deploymentId: string)

  /** Seconds elapsed once `polls` iterations have run. */
  function ElapsedAfter(polls: nat): nat
  {
    PollIntervalSeconds * polls
  }

  /**
   * The number of polls a window of `timeout` minutes admits: the loop
   * only starts an iteration while fewer than `60 * timeout` seconds have
   * elapsed, so this is the least count whose elapsed time reaches the window.
   */
  function WindowPolls(timeout: int): (n: nat)
    ensures ElapsedAfter(n) >= 60 * timeout
    ensures forall k: nat :: k < n ==> ElapsedAfter(k) < 60 * timeout
  {
    if timeout <= 0 then 0 else 6 * timeout
  }

  /** Whether an answer keeps the poller waiting, stated on the code itself. */
  predicate IsWaiting(code: int)
  {
    ClassOfCode(code) == KeepWaiting
  }

  /** The length of the longest prefix of answers that keep the poller waiting. */
  function LeadingWaits(remote: seq<int>): (w: nat)
    ensures w <= |remote|
    ensures forall j :: 0 <= j < w ==> IsWaiting(remote[j])
    ensures w < |remote| ==> !IsWaiting(remote[w])
  {
    if remote == [] || !IsWaiting(remote[0]) then 0 else 1 + LeadingWaits(remote[1..])
  }

  /** The names of the observed codes, in polling order. */
  function Names(codes: seq<int>): (names: seq<string>)
    ensures |names| == |codes|
    ensures forall i :: 0 <= i < |codes| ==> names[i] == StatusName(codes[i])
  {
    seq(|codes|, i requires 0 <= i < |codes| => StatusName(codes[i]))
  }

  /**
   * The progress log of a run of observed names: a name is logged when it
   * differs from the one observed just before it, and the first is always
   * logged, so consecutive repeats collapse into one entry.
   */
  function Collapse(names: seq<string>): (log: seq<string>)
    ensures |log| <= |names|
    ensures names != [] ==> log != [] && log[0] == names[0] && log[|log| - 1] == names[|names| - 1]
    ensures forall i :: 0 <= i < |log| - 1 ==> log[i] != log[i + 1]
  {
    if |names| <= 1 then names
    else
      var init := Collapse(names[..|names| - 1]);
      if names[|names| - 1] == names[|names| - 2] then init else init + [names[|names| - 1]]
  }

  /**
   * The outcome of waiting on `remote` for `timeout` minutes: the first
   * answer that does not keep the poller waiting decides it, unless the window
   * closes first or the answers run out first.
   */
  function Poll(deploymentId: string, timeout: int, remote: seq<int>): (outcome: PollOutcome)
    ensures outcome.TimedOut? ==> outcome == TimedOut(deploymentId, timeout)
    ensures outcome.QueryFailed? ==> outcome == QueryFailed(deploymentId)
  {
    var w := LeadingWaits(remote);
    if w >= WindowPolls(timeout) then TimedOut(deploymentId, timeout)
    else if w == |remote| then QueryFailed(deploymentId)
    else if ClassOfCode(remote[w]) == SuccessTerminal then Succeeded(StatusName(remote[w]))
    else Failed(StatusName(remote[w]))
  }

  /**
   * A success carries the successful-deployment name, and a failure carries a
   * name the classification treats as terminal and unsuccessful.
   */
  lemma PollStatusClass(deploymentId: string, timeout: int, remote: seq<int>)
    ensures Poll(deploymentId, timeout, remote).Succeeded? ==>
      Poll(deploymentId, timeout, remote).status == SuccessfulDeployment
    ensures Poll(deploymentId, timeout, remote).Failed? ==>
      Classify(Poll(deploymentId, timeout, remote).status) == FailureTerminal
    ensures Poll(deploymentId, timeout, remote).Succeeded? || Poll(deploymentId, timeout, remote).Failed? ==>
      Poll(deploymentId, timeout, remote).status != InitiatingDeployment &&
      Poll(deploymentId, timeout, remote).status != PendingDeployment
  {
    var w := LeadingWaits(remote);
    if w < WindowPolls(timeout) && w < |remote| {
      ClassifyStatusName(remote[w]);
    }
  }

  /** The number of answers the wait consumes. */
  function PollsUsed(timeout: int, remote: seq<int>): (n: nat)
    ensures n <= WindowPolls(timeout) && n <= |remote|
  {
    var w := LeadingWaits(remote);
    if w >= WindowPolls(timeout) then WindowPolls(timeout)
    else if w == |remote| then w
    else w + 1
  }

  /** A settled wait carries the name of the last answer it queried. */
  lemma PollStatusObserved(deploymentId: string, timeout: int, remote: seq<int>)
    requires Poll(deploymentId, timeout, remote).Succeeded? || Poll(deploymentId, timeout, remote).Failed?
    ensures PollsUsed(timeout, remote) >= 1
    ensures Poll(deploymentId, timeout, remote).status == StatusName(remote[PollsUsed(timeout, remote) - 1])
  {
  }

  /**
   * The polling loop. It returns how the wait ended, the names it logged and
   * the number of answers it consumed.
   */
  method WaitForDeployment(deploymentId: string, timeout: int, remote: seq<int>)
    returns (outcome: PollOutcome, log: seq<string>, polls: nat)
    ensures outcome == Poll(deploymentId, timeout, remote)
    ensures polls == PollsUsed(timeout, remote)
    ensures log == Collapse(Names(remote[..polls]))
  {
    var elapsed: nat := 0;
    var current: Option<string> := None;
    log, polls := [], 0;
    while elapsed < 60 * timeout
      invariant elapsed == ElapsedAfter(polls)
      invariant polls <= LeadingWaits(remote)
      invariant polls <= WindowPolls(timeout)
      invariant log == Collapse(Names(remote[..polls]))
      invariant current == LastObserved(remote, polls)
      decreases 60 * timeout - elapsed
    {
      elapsed := elapsed + PollIntervalSeconds;
      if polls == |remote| {
        outcome := QueryFailed(deploymentId);
        return;
      }
      var name := StatusName(remote[polls]);
      log, current := LogIfChanged(remote, polls, log, current);
      polls := polls + 1;
      var verdict := Classify(name);
      ClassifyStatusName(remote[polls - 1]);
      if verdict == SuccessTerminal {
        PollSettlesOnFirstTerminal(deploymentId, timeout, remote, polls - 1);
        outcome := Succeeded(name);
        return;
      } else if verdict == FailureTerminal {
        PollSettlesOnFirstTerminal(deploymentId, timeout, remote, polls - 1);
        outcome := Failed(name);
        return;
      }
      LeadingWaitsGrow(remote, polls - 1);
    }
    LeadingWaitsAtLeast(remote, polls);
    outcome := TimedOut(deploymentId, timeout);
  }

  /**
   * The progress line of one poll: the observed name is logged only when it
   * differs from the name observed by the poll before.
   */
  method LogIfChanged(remote: seq<int>, polls: nat, log: seq<string>, current: Option<string>)
    returns (log': seq<string>, current': Option<string>)
    requires polls < |remote|
    requires log == Collapse(Names(remote[..polls]))
    requires current == LastObserved(remote, polls)
    ensures log' == Collapse(Names(remote[..polls + 1]))
    ensures current' == LastObserved(remote, polls + 1)
  {
    var name := StatusName(remote[polls]);
    LogStep(remote, polls);
    log', current' := log, current;
    if current != Some(name) {
      log' := log + [name];
      current' := Some(name);
    }
  }

  /** The name observed by the latest of the first `polls` polls, if any. */
  function LastObserved(remote: seq<int>, polls: nat): Option<string>
    requires polls <= |remote|
  {
    if polls == 0 then None else Some(StatusName(remote[polls - 1]))
  }

  /** One more poll extends the log exactly when its name differs from the latest observed one. */
  lemma LogStep(remote: seq<int>, polls: nat)
    requires polls < |remote|
    ensures
      var name := StatusName(remote[polls]);
      Collapse(Names(remote[..polls + 1])) ==
        if LastObserved(remote, polls) != Some(name) then Collapse(Names(remote[..polls])) + [name]
        else Collapse(Names(remote[..polls]))
  {
    NamesSnoc(remote, polls);
    CollapseSnoc(Names(remote[..polls]), StatusName(remote[polls]));
  }

  lemma NamesSnoc(remote: seq<int>, k: nat)
    requires k < |remote|
    ensures Names(remote[..k + 1]) == Names(remote[..k]) + [StatusName(remote[k])]
  {
  }

  /** Observing one more name adds it to the log exactly when it differs from the name before it. */
  lemma CollapseSnoc(names: seq<string>, x: string)
    ensures Collapse(names + [x]) ==
      if names != [] && names[|names| - 1] == x then Collapse(names) else Collapse(names) + [x]
  {
    var s := names + [x];
    if |s| > 1 {
      assert s[..|s| - 1] == names;
    }
  }

  /** A waiting answer right after a covered prefix is covered too. */
  lemma LeadingWaitsGrow(remote: seq<int>, k: nat)
    requires k <= LeadingWaits(remote) && k < |remote|
    requires IsWaiting(remote[k])
    ensures k + 1 <= LeadingWaits(remote)
  {
  }

  /** Any prefix of waiting answers is covered by the leading waits. */
  lemma LeadingWaitsAtLeast(remote: seq<int>, n: nat)
    requires n <= |remote|
    requires forall j :: 0 <= j < n ==> IsWaiting(remote[j])
    ensures LeadingWaits(remote) >= n
  {
  }

  /**
   * The first answer, inside the window, that does not keep the poller
   * waiting decides the outcome, and it is the last answer queried.
   */
  lemma PollSettlesOnFirstTerminal(deploymentId: string, timeout: int, remote: seq<int>, k: nat)
    requires k < |remote| && k < WindowPolls(timeout)
    requires forall j :: 0 <= j < k ==> IsWaiting(remote[j])
    requires !IsWaiting(remote[k])
    ensures Poll(deploymentId, timeout, remote) ==
      var name := StatusName(remote[k]);
      if ClassOfCode(remote[k]) == SuccessTerminal then Succeeded(name) else Failed(name)
    ensures PollsUsed(timeout, remote) == k + 1
  {
    LeadingWaitsAtLeast(remote, k);
  }

  /** In terms of codes: code 3 ends the wait successfully, any code other than 1, 2 and 3 ends it as a failure. */
  lemma PollSettlesOnFirstTerminalCode(deploymentId: string, timeout: int, remote: seq<int>, k: nat)
    requires k < |remote| && k < WindowPolls(timeout)
    requires forall j :: 0 <= j < k ==> remote[j] == 1 || remote[j] == 2
    requires remote[k] != 1 && remote[k] != 2
    ensures Poll(deploymentId, timeout, remote) ==
      if remote[k] == 3 then Succeeded(SuccessfulDeployment) else Failed(StatusName(remote[k]))
  {
    forall j | 0 <= j <= k
      ensures Classify(StatusName(remote[j])) == ClassOfCode(remote[j])
    {
      ClassifyStatusName(remote[j]);
    }
    PollSettlesOnFirstTerminal(deploymentId, timeout, remote, k);
  }

  /** A timeout happens exactly when every answer in the window keeps the poller waiting. */
  lemma PollTimesOutIff(deploymentId: string, timeout: int, remote: seq<int>)
    ensures Poll(deploymentId, timeout, remote).TimedOut? <==>
      WindowPolls(timeout) <= |remote| && forall j :: 0 <= j < WindowPolls(timeout) ==> IsWaiting(remote[j])
    ensures Poll(deploymentId, timeout, remote).TimedOut? ==> PollsUsed(timeout, remote) == WindowPolls(timeout)
  {
    if WindowPolls(timeout) <= |remote| && forall j :: 0 <= j < WindowPolls(timeout) ==> IsWaiting(remote[j]) {
      LeadingWaitsAtLeast(remote, WindowPolls(timeout));
    }
  }

  /** The query fails exactly when the answers run out inside the window while all of them keep the poller waiting. */
  lemma PollQueryFailsIff(deploymentId: string, timeout: int, remote: seq<int>)
    ensures Poll(deploymentId, timeout, remote).QueryFailed? <==>
      |remote| < WindowPolls(timeout) && forall j :: 0 <= j < |remote| ==> IsWaiting(remote[j])
  {
    if |remote| < WindowPolls(timeout) && forall j :: 0 <= j < |remote| ==> IsWaiting(remote[j]) {
      LeadingWaitsAtLeast(remote, |remote|);
    }
  }

  /** A window of zero or fewer minutes makes no query and times out at once. */
  lemma NoWindowNoPolls(deploymentId: string, timeout: int, remote: seq<int>)
    requires timeout <= 0
    ensures Poll(deploymentId, timeout, remote) == TimedOut(deploymentId, timeout)
    ensures PollsUsed(timeout, remote) == 0
  {
  }

  /** A window of `timeout` minutes admits at most six polls per minute. */
  lemma PollsPerMinute(timeout: int, remote: seq<int>)
    ensures PollsUsed(timeout, remote) <= if timeout <= 0 then 0 else 6 * timeout
  {
  }

  /**
   * Answers after the last one queried play no part: once the wait has
   * ended on its own, replacing everything after the consumed answers leaves
   * the outcome and the number of polls unchanged.
   */
  lemma {:induction false} PollIgnoresLaterAnswers(deploymentId: string, timeout: int, remote: seq<int>, later: seq<int>)
    requires !Poll(deploymentId, timeout, remote).QueryFailed?
    ensures Poll(deploymentId, timeout, remote[..PollsUsed(timeout, remote)] + later) == Poll(deploymentId, timeout, remote)
    ensures PollsUsed(timeout, remote[..PollsUsed(timeout, remote)] + later) == PollsUsed(timeout, remote)
  {
    var n := PollsUsed(timeout, remote);
    var w := LeadingWaits(remote);
    var other := remote[..n] + later;
    assert forall j :: 0 <= j < n ==> other[j] == remote[j];
    if w >= WindowPolls(timeout) {
      LeadingWaitsAtLeast(other, n);
    } else {
      assert n == w + 1 && other[w] == remote[w];
      LeadingWaitsIs(other, w);
    }
  }

  /** The leading waits are pinned down by the answers around them. */
  lemma LeadingWaitsIs(remote: seq<int>, w: nat)
    requires w < |remote|
    requires forall j :: 0 <= j < w ==> IsWaiting(remote[j])
    requires !IsWaiting(remote[w])
    ensures LeadingWaits(remote) == w
  {
    LeadingWaitsAtLeast(remote, w);
  }

  /** A sequence without adjacent repeats is its own log. */
  lemma {:induction false} CollapseRepeatFree(names: seq<string>)
    requires forall i :: 0 <= i < |names| - 1 ==> names[i] != names[i + 1]
    ensures Collapse(names) == names
  {
    if |names| > 1 {
      CollapseRepeatFree(names[..|names| - 1]);
    }
  }

  /** Every observed name is logged at least once, and only observed names are logged. */
  lemma {:induction false} CollapseKeepsNames(names: seq<string>)
    ensures forall x :: x in Collapse(names) <==> x in names
  {
    if |names| > 1 {
      var init := names[..|names| - 1];
      CollapseKeepsNames(init);
      assert names == init + [names[|names| - 1]];
    }
  }

  /** A run of one repeated name logs a single line. */
  lemma {:induction false} CollapseConstant(names: seq<string>, x: string)
    requires names != []
    requires forall i :: 0 <= i < |names| ==> names[i] == x
    ensures Collapse(names) == [x]
  {
    if |names| > 1 {
      CollapseConstant(names[..|names| - 1], x);
    }
  }

  /** Initiating, then pending, then successful: success after three polls and three log lines. */
  lemma SucceedsAfterTwoTransitions(deploymentId: string, timeout: int)
    requires timeout >= 1
    ensures Poll(deploymentId, timeout, [1, 2, 3]) == Succeeded("SUCCESSFUL_DEPLOYMENT")
    ensures PollsUsed(timeout, [1, 2, 3]) == 3
    ensures Collapse(Names([1, 2, 3])) == ["INITIATING_DEPLOYMENT", "PENDING_DEPLOYMENT", "SUCCESSFUL_DEPLOYMENT"]
  {
    PollSettlesOnFirstTerminalCode(deploymentId, timeout, [1, 2, 3], 2);
    CollapseRepeatFree(Names([1, 2, 3]));
  }

  /** Pending, then failed: the wait ends after the second poll, whatever would have followed. */
  lemma FailureEndsWaitEarly(deploymentId: string, timeout: int, later: seq<int>)
    requires timeout >= 1
    ensures Poll(deploymentId, timeout, [2, 4] + later) == Failed("FAILED_DEPLOYMENT")
    ensures PollsUsed(timeout, [2, 4] + later) == 2
  {
    var remote := [2, 4] + later;
    PollSettlesOnFirstTerminalCode(deploymentId, timeout, remote, 1);
  }

  /** One minute of pending answers: a timeout after six polls, sixty seconds and one log line. */
  lemma PendingForOneMinuteTimesOut(deploymentId: string, remote: seq<int>)
    requires |remote| >= 6
    requires forall i :: 0 <= i < |remote| ==> remote[i] == 2
    ensures Poll(deploymentId, 1, remote) == TimedOut(deploymentId, 1)
    ensures PollsUsed(1, remote) == 6 && ElapsedAfter(6) == 60
    ensures Collapse(Names(remote[..6])) == ["PENDING_DEPLOYMENT"]
  {
    PollTimesOutIff(deploymentId, 1, remote);
    CollapseConstant(Names(remote[..6]), "PENDING_DEPLOYMENT");
  }
}
