/**
 * The action's entry point: build the deploy command, run it, scrape the
 * deployment ID from its output, wait for the deployment and report the
 * outcome as two `key=value` lines appended to the workflow's environment
 * file. The CLI run, the status service and the environment file are inputs.
 */
module Action {
  import opened Basics
  import opened PyStrings
  import opened DeployStatus
  import opened CommandBuilder
  import opened Poller
  import opened Scraper

  /** The poller's window, in minutes, when `INPUT_TIMEOUT_AFTER` is not set. */
  const DefaultTimeoutMinutes: int := 30

  /** The keys of the two lines the action appends, each with its `=`. */
  const IdKey: string := "deploy-id="
  const StatusKey: string := "deploy-status="

  /** The status reported when the window closes before the deployment settles. */
  const TimeoutStatus: string := "TIMEOUT"

  /** The process exit code and the lines appended to the environment file, in order. */
  datatype RunResult = RunResult(exitCode: int, appended: seq<string>)

  /**
   * The outputs the action publishes: the deployment ID and how the
   * deployment ended, one `key=value` line each. A line whose value holds no
   * `=` reads back, split at `=`, as exactly its key and its value.
   */
  function ReportLines(deploymentId: string, status: string): (lines: seq<string>)
    ensures |lines| == 2
    ensures '=' !in deploymentId ==> Split(lines[0], '=') == ["deploy-id", deploymentId]
    ensures '=' !in status ==> Split(lines[1], '=') == ["deploy-status", status]
  {
    assert "deploy-id" + "=" == IdKey && "deploy-status" + "=" == StatusKey;
    KeyValueReadBack("deploy-id", deploymentId);
    KeyValueReadBack("deploy-status", status);
    [IdKey + deploymentId, StatusKey + status]
  }

  lemma KeyValueReadBack(key: string, value: string)
    requires '=' !in key
    ensures '=' !in value ==> Split(key + "=" + value, '=') == [key, value]
  {
    if '=' !in value {
      SplitTwoPieces(key, value, '=');
    }
  }

  /** An aborted run: exit code 1 and nothing written. */
  const Aborted: RunResult := RunResult(1, [])

  /**
   * Writing the two lines succeeds when the environment file's path is set;
   * without it, opening the file fails and the run ends with exit code 1.
   */
  function Report(deploymentId: string, status: string, envFileSet: bool): RunResult
  {
    if envFileSet then RunResult(0, ReportLines(deploymentId, status)) else Aborted
  }

  /** The poller's window: the setting when given, thirty minutes otherwise. */
  function WindowMinutes(timeoutSetting: Option<int>): (minutes: int)
    ensures timeoutSetting.Some? ==> minutes == timeoutSetting.value
    ensures timeoutSetting.None? ==> minutes == 30
  {
    if timeoutSetting.Some? then timeoutSetting.value else DefaultTimeoutMinutes
  }

  /**
   * The `TimeoutError` handler: the timeout marker is reported when there is
   * an ID to report it for, and the run aborts otherwise.
   */
  function TimeoutHandler(deploymentId: string, envFileSet: bool): RunResult
  {
    if deploymentId != "" then Report(deploymentId, TimeoutStatus, envFileSet) else Aborted
  }

  /**
   * How a wait on a scraped deployment ID ends the run: every settled
   * deployment, failed ones included, is reported. A closed window raises
   * `TimeoutError`, and so may the status query itself
   * (`queryErrorIsTimeout`); both reach the timeout handler. Any other
   * failing query aborts.
   */
  function Conclude(deploymentId: string, outcome: PollOutcome, queryErrorIsTimeout: bool, envFileSet: bool): (r: RunResult)
    ensures r.exitCode == 0 || r.exitCode == 1
    ensures r.exitCode == 1 <==> r.appended == []
  {
    match outcome
    case Succeeded(status) => Report(deploymentId, status, envFileSet)
    case Failed(status) => Report(deploymentId, status, envFileSet)
    case TimedOut(_, _) => TimeoutHandler(deploymentId, envFileSet)
    case QueryFailed(_) => if queryErrorIsTimeout then TimeoutHandler(deploymentId, envFileSet) else Aborted
  }

  /** The run once the CLI has succeeded: without a deployment ID in its output there is nothing to wait on. */
  function AfterDeploy(found: Option<Scraped>, timeout: int, remote: seq<int>, queryErrorIsTimeout: bool,
                       envFileSet: bool): RunResult
  {
    match found
    case None => Aborted
    case Some(f) => Conclude(f.deploymentId, Poll(f.deploymentId, timeout, remote), queryErrorIsTimeout, envFileSet)
  }

  /**
   * The whole run. A malformed parameter list or a failing CLI ends it with
   * exit code 1 and nothing written before the output is looked at.
   */
  function ActionOutcome(s: Settings, timeoutSetting: Option<int>, returnCode: int, stdout: string,
                         remote: seq<int>, queryErrorIsTimeout: bool, envFileSet: bool): (r: RunResult)
    ensures r.exitCode == 0 || r.exitCode == 1
    ensures r.exitCode == 1 <==> r.appended == []
    ensures r.exitCode == 0 ==> CommandLine(s).Ok? && returnCode == 0 && Scrape(stdout).Some?
  {
    if CommandLine(s).Err? || returnCode != 0 then Aborted
    else AfterDeploy(Scrape(stdout), WindowMinutes(timeoutSetting), remote, queryErrorIsTimeout, envFileSet)
  }

  /**
   * The entry point, step by step: the command is built before anything
   * runs, the CLI's exit code and output are given, and the wait is the
   * polling loop itself.
   */
  method RunAction(s: Settings, timeoutSetting: Option<int>, returnCode: int, stdout: string,
                   remote: seq<int>, queryErrorIsTimeout: bool, envFileSet: bool)
    returns (exitCode: int, appended: seq<string>)
    ensures RunResult(exitCode, appended) ==
      ActionOutcome(s, timeoutSetting, returnCode, stdout, remote, queryErrorIsTimeout, envFileSet)
  {
    var timeout := DefaultTimeoutMinutes;
    if timeoutSetting.Some? {
      timeout := timeoutSetting.value;
    }
    var command := DeployCommand(s);
    if command.Err? {
      return 1, [];
    }
    if returnCode != 0 {
      return 1, [];
    }
    var found := Scrape(stdout);
    if found.None? {
      return 1, [];
    }
    exitCode, appended := Settle(found.value.deploymentId, timeout, remote, queryErrorIsTimeout, envFileSet);
  }

  /**
   * The wait on a scraped deployment ID and its report: the status the
   * poller settles on, or the timeout marker, is written with the ID.
   */
  method Settle(deploymentId: string, timeout: int, remote: seq<int>, queryErrorIsTimeout: bool, envFileSet: bool)
    returns (exitCode: int, appended: seq<string>)
    ensures RunResult(exitCode, appended) ==
      Conclude(deploymentId, Poll(deploymentId, timeout, remote), queryErrorIsTimeout, envFileSet)
  {
    var outcome, log, polls := WaitForDeployment(deploymentId, timeout, remote);
    var status: string;
    match outcome {
      case Succeeded(name) =>
        status := name;
      case Failed(name) =>
        status := name;
      case TimedOut(_, _) =>
        if deploymentId == "" {
          return 1, [];
        }
        status := TimeoutStatus;
      case QueryFailed(_) =>
        if !queryErrorIsTimeout || deploymentId == "" {
          return 1, [];
        }
        status := TimeoutStatus;
    }
    if !envFileSet {
      return 1, [];
    }
    exitCode, appended := 0, ReportLines(deploymentId, status);
  }

  /**
   * A wait ends the run with 0 and both lines, or with 1 and nothing; the
   * first line names the deployment. It ends with 1 exactly when the query
   * fails with anything but a `TimeoutError`, when the environment file is
   * not set, or when the timeout handler has no ID to report.
   */
  lemma ConcludeExit(deploymentId: string, outcome: PollOutcome, queryErrorIsTimeout: bool, envFileSet: bool)
    ensures
      var r := Conclude(deploymentId, outcome, queryErrorIsTimeout, envFileSet);
      && (r.exitCode == 0 || r.exitCode == 1)
      && (r.exitCode == 0 <==> |r.appended| == 2)
      && (r.exitCode == 1 <==> r.appended == [])
      && (r.exitCode == 0 ==> r.appended[0] == IdKey + deploymentId)
      && (r.exitCode == 1 <==>
            || (outcome.QueryFailed? && !queryErrorIsTimeout)
            || !envFileSet
            || ((outcome.TimedOut? || outcome.QueryFailed?) && deploymentId == ""))
  {
  }

  /**
   * The run exits with 0 exactly when it writes both lines, and then the
   * first names the deployment the CLI reported; otherwise it writes nothing.
   */
  lemma ExitZeroIffReported(s: Settings, timeoutSetting: Option<int>, returnCode: int, stdout: string,
                            remote: seq<int>, queryErrorIsTimeout: bool, envFileSet: bool)
    ensures
      var r := ActionOutcome(s, timeoutSetting, returnCode, stdout, remote, queryErrorIsTimeout, envFileSet);
      && (r.exitCode == 0 || r.exitCode == 1)
      && (r.exitCode == 0 <==> |r.appended| == 2)
      && (r.exitCode == 1 <==> r.appended == [])
      && (r.exitCode == 0 ==> Scrape(stdout).Some? && r.appended[0] == IdKey + Scrape(stdout).value.deploymentId)
  {
    if CommandLine(s).Ok? && returnCode == 0 && Scrape(stdout).Some? {
      var id := Scrape(stdout).value.deploymentId;
      var outcome := Poll(id, WindowMinutes(timeoutSetting), remote);
      assert ActionOutcome(s, timeoutSetting, returnCode, stdout, remote, queryErrorIsTimeout, envFileSet) ==
        Conclude(id, outcome, queryErrorIsTimeout, envFileSet);
      ConcludeExit(id, outcome, queryErrorIsTimeout, envFileSet);
    }
  }

  /**
   * The run fails exactly when the parameter list is malformed, the CLI
   * fails, its output names no deployment, the status query fails with
   * anything but a `TimeoutError`, or the environment file is not set.
   */
  lemma ExitOneIff(s: Settings, timeoutSetting: Option<int>, returnCode: int, stdout: string,
                   remote: seq<int>, queryErrorIsTimeout: bool, envFileSet: bool)
    ensures ActionOutcome(s, timeoutSetting, returnCode, stdout, remote, queryErrorIsTimeout, envFileSet).exitCode == 1 <==>
      || CommandTokens(s).Err?
      || returnCode != 0
      || Search(stdout, DeploymentIdLabel).None?
      || (Poll(Scrape(stdout).value.deploymentId, WindowMinutes(timeoutSetting), remote).QueryFailed? && !queryErrorIsTimeout)
      || !envFileSet
  {
    ScrapeIdentifiers(stdout);
    if CommandLine(s).Ok? && returnCode == 0 && Scrape(stdout).Some? {
      var id := Scrape(stdout).value.deploymentId;
      var outcome := Poll(id, WindowMinutes(timeoutSetting), remote);
      assert ActionOutcome(s, timeoutSetting, returnCode, stdout, remote, queryErrorIsTimeout, envFileSet) ==
        Conclude(id, outcome, queryErrorIsTimeout, envFileSet);
      ConcludeExit(id, outcome, queryErrorIsTimeout, envFileSet);
    }
  }

  /** The status line, read back: what follows the `deploy-status=` key. */
  function StatusReported(r: RunResult): string
    requires |r.appended| == 2 && |r.appended[1]| >= |StatusKey|
  {
    r.appended[1][|StatusKey|..]
  }

  /**
   * A reported wait names a settled status: the one the poller settled on,
   * or the timeout marker when the window closed or the query timed out.
   */
  lemma ConcludeSettled(deploymentId: string, outcome: PollOutcome, queryErrorIsTimeout: bool, envFileSet: bool)
    requires Conclude(deploymentId, outcome, queryErrorIsTimeout, envFileSet).exitCode == 0
    ensures
      var r := Conclude(deploymentId, outcome, queryErrorIsTimeout, envFileSet);
      && |r.appended| == 2 && |r.appended[1]| >= |StatusKey| && r.appended[1][..|StatusKey|] == StatusKey
      && StatusReported(r) == if outcome.TimedOut? || outcome.QueryFailed? then TimeoutStatus else outcome.status
  {
    var status := if outcome.TimedOut? || outcome.QueryFailed? then TimeoutStatus else outcome.status;
    assert (StatusKey + status)[|StatusKey|..] == status;
  }

  /**
   * The reported status is never one that keeps the poller waiting: it is
   * the successful-deployment name, a failure name, or the timeout marker.
   */
  lemma ReportedStatusSettled(s: Settings, timeoutSetting: Option<int>, returnCode: int, stdout: string,
                              remote: seq<int>, queryErrorIsTimeout: bool, envFileSet: bool)
    requires ActionOutcome(s, timeoutSetting, returnCode, stdout, remote, queryErrorIsTimeout, envFileSet).exitCode == 0
    ensures
      var r := ActionOutcome(s, timeoutSetting, returnCode, stdout, remote, queryErrorIsTimeout, envFileSet);
      && |r.appended| == 2 && |r.appended[1]| >= |StatusKey| && r.appended[1][..|StatusKey|] == StatusKey
      && var status := StatusReported(r);
      && (status == SuccessfulDeployment || status == TimeoutStatus || Classify(status) == FailureTerminal)
      && status != InitiatingDeployment && status != PendingDeployment
  {
    var id := Scrape(stdout).value.deploymentId;
    var timeout := WindowMinutes(timeoutSetting);
    var outcome := Poll(id, timeout, remote);
    assert ActionOutcome(s, timeoutSetting, returnCode, stdout, remote, queryErrorIsTimeout, envFileSet) ==
      Conclude(id, outcome, queryErrorIsTimeout, envFileSet);
    ConcludeSettled(id, outcome, queryErrorIsTimeout, envFileSet);
    PollStatusClass(id, timeout, remote);
  }

  /**
   * A reported wait's lines read back, split at `=`, as the ID and the
   * reported status, whenever neither holds `=` itself.
   */
  lemma ConcludeReadsBack(deploymentId: string, outcome: PollOutcome, queryErrorIsTimeout: bool, envFileSet: bool)
    requires Conclude(deploymentId, outcome, queryErrorIsTimeout, envFileSet).exitCode == 0
    requires '=' !in deploymentId
    requires outcome.Succeeded? || outcome.Failed? ==> '=' !in outcome.status
    ensures
      var r := Conclude(deploymentId, outcome, queryErrorIsTimeout, envFileSet);
      && |r.appended| == 2
      && Split(r.appended[0], '=') == ["deploy-id", deploymentId]
      && Split(r.appended[1], '=') ==
           ["deploy-status", if outcome.TimedOut? || outcome.QueryFailed? then TimeoutStatus else outcome.status]
  {
    assert '=' !in TimeoutStatus;
  }

  /**
   * Both reported lines read back, split at `=`, as their key and the value
   * written: the scraped ID is made of identifier characters, and neither a
   * status name nor the timeout marker holds `=`.
   */
  lemma ReportReadsBack(s: Settings, timeoutSetting: Option<int>, returnCode: int, stdout: string,
                        remote: seq<int>, queryErrorIsTimeout: bool, envFileSet: bool)
    requires ActionOutcome(s, timeoutSetting, returnCode, stdout, remote, queryErrorIsTimeout, envFileSet).exitCode == 0
    ensures
      var r := ActionOutcome(s, timeoutSetting, returnCode, stdout, remote, queryErrorIsTimeout, envFileSet);
      && Scrape(stdout).Some? && |r.appended| == 2 && |r.appended[1]| >= |StatusKey|
      && Split(r.appended[0], '=') == ["deploy-id", Scrape(stdout).value.deploymentId]
      && Split(r.appended[1], '=') == ["deploy-status", StatusReported(r)]
  {
    var id := Scrape(stdout).value.deploymentId;
    var timeout := WindowMinutes(timeoutSetting);
    var outcome := Poll(id, timeout, remote);
    assert ActionOutcome(s, timeoutSetting, returnCode, stdout, remote, queryErrorIsTimeout, envFileSet) ==
      Conclude(id, outcome, queryErrorIsTimeout, envFileSet);
    ConcludeSettled(id, outcome, queryErrorIsTimeout, envFileSet);
    if outcome.Succeeded? || outcome.Failed? {
      PollStatusObserved(id, timeout, remote);
      StatusNameUnquoted(remote[PollsUsed(timeout, remote) - 1]);
    }
    TokenUnquoted(id);
    ConcludeReadsBack(id, outcome, queryErrorIsTimeout, envFileSet);
  }

  /** A deployment that settles as failed is still reported, with exit code 0 and its failure name. */
  lemma FailedDeploymentExitsZero(s: Settings, timeoutSetting: Option<int>, stdout: string, remote: seq<int>,
                                  queryErrorIsTimeout: bool)
    requires CommandTokens(s).Ok? && Scrape(stdout).Some?
    requires Poll(Scrape(stdout).value.deploymentId, WindowMinutes(timeoutSetting), remote).Failed?
    ensures ActionOutcome(s, timeoutSetting, 0, stdout, remote, queryErrorIsTimeout, true) ==
      RunResult(0, ReportLines(Scrape(stdout).value.deploymentId,
                               Poll(Scrape(stdout).value.deploymentId, WindowMinutes(timeoutSetting), remote).status))
  {
  }

  /**
   * A wait that times out, or whose status query raises `TimeoutError`, is
   * reported with the timeout marker and exit code 0: the scraped deployment
   * ID is never empty, so the timeout handler always has an ID to report.
   */
  lemma TimeoutReported(s: Settings, timeoutSetting: Option<int>, stdout: string, remote: seq<int>,
                        queryErrorIsTimeout: bool)
    requires CommandTokens(s).Ok? && Scrape(stdout).Some?
    requires
      var outcome := Poll(Scrape(stdout).value.deploymentId, WindowMinutes(timeoutSetting), remote);
      outcome.TimedOut? || (outcome.QueryFailed? && queryErrorIsTimeout)
    ensures ActionOutcome(s, timeoutSetting, 0, stdout, remote, queryErrorIsTimeout, true) ==
      RunResult(0, ReportLines(Scrape(stdout).value.deploymentId, TimeoutStatus))
  {
    var id := Scrape(stdout).value.deploymentId;
    assert id != "";
    assert ActionOutcome(s, timeoutSetting, 0, stdout, remote, queryErrorIsTimeout, true) ==
      Conclude(id, Poll(id, WindowMinutes(timeoutSetting), remote), queryErrorIsTimeout, true);
  }

  /** Once the CLI has succeeded, only the deployment ID of the scraped output matters. */
  lemma AfterDeployIgnoresBuildId(found: Scraped, found': Scraped, timeout: int, remote: seq<int>,
                                  queryErrorIsTimeout: bool, envFileSet: bool)
    requires found.deploymentId == found'.deploymentId
    ensures AfterDeploy(Some(found), timeout, remote, queryErrorIsTimeout, envFileSet) ==
      AfterDeploy(Some(found'), timeout, remote, queryErrorIsTimeout, envFileSet)
  {
  }

  /** The build ID plays no part in the outcome: two outputs naming the same deployment end the same way. */
  lemma BuildIdIrrelevant(s: Settings, timeoutSetting: Option<int>, returnCode: int, stdout: string, stdout': string,
                          remote: seq<int>, queryErrorIsTimeout: bool, envFileSet: bool)
    requires Scrape(stdout).Some? && Scrape(stdout').Some?
    requires Scrape(stdout).value.deploymentId == Scrape(stdout').value.deploymentId
    ensures ActionOutcome(s, timeoutSetting, returnCode, stdout, remote, queryErrorIsTimeout, envFileSet) ==
      ActionOutcome(s, timeoutSetting, returnCode, stdout', remote, queryErrorIsTimeout, envFileSet)
  {
    AfterDeployIgnoresBuildId(Scrape(stdout).value, Scrape(stdout').value, WindowMinutes(timeoutSetting), remote,
                              queryErrorIsTimeout, envFileSet);
  }

  /** Without `INPUT_TIMEOUT_AFTER` the poller waits thirty minutes, that is at most 180 polls. */
  lemma DefaultWindow(remote: seq<int>)
    ensures WindowMinutes(None) == 30
    ensures PollsUsed(WindowMinutes(None), remote) <= 180
  {
    PollsPerMinute(WindowMinutes(None), remote);
  }
}
