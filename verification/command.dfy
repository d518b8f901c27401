/**
 * The command builder, `deploy_command`: the deployment CLI invocation
 * assembled from the action's settings, flag by flag in a fixed order.
 */
module CommandBuilder {
  import opened Basics
  import opened PyStrings

  /**
   * The environment variables the builder reads; `None` is an unset variable.
   * `timeoutAfter` is `TIMEOUT_AFTER`, the CLI's own timeout, which is not the
   * poller's waiting window.
   */
  datatype Settings = Settings(
    deployType: Option<string>,
    modelId: Option<string>,
    buildId: Option<string>,
    paramList: Option<string>,
    envVars: Option<string>,
    instance: Option<string>,
    replicas: Option<string>,
    iamRoleArn: Option<string>,
    environment: Option<string>,
    timeoutAfter: Option<string>)

  /** A `PARAM_LIST` entry that does not split into exactly a key and a value at `=`. */
  datatype CommandError = MalformedParam(entry: string)

  const CommandHead: seq<string> := ["qwak", "models", "deploy"]

  /** The flags, in the order the builder emits them. */
  const ModelIdFlag: string := "--model-id"
  const BuildIdFlag: string := "--build-id"
  const EnvVarFlag: string := "-E"
  const InstanceFlag: string := "--instance"
  const ReplicasFlag: string := "--replicas"
  const IamRoleArnFlag: string := "--iam-role-arn"
  const EnvironmentFlag: string := "--environment"
  const TimeoutFlag: string := "--timeout"

  /** Python truthiness of an environment lookup: set and non-empty. */
  predicate Given(setting: Option<string>)
  {
    setting.Some? && setting.value != ""
  }

  /** The deploy type is passed through as a bare word, without validation. */
  function TypeToken(setting: Option<string>): seq<string>
  {
    if Given(setting) then [setting.value] else []
  }

  /** A flag followed by its value, when the setting is given. */
  function Opt(flag: string, setting: Option<string>): seq<string>
  {
    if Given(setting) then [flag, setting.value] else []
  }

  /** `key, value = entry.split("=")` followed by the pair `--key value`. */
  function ParamPair(entry: string): (r: Result<seq<string>, CommandError>)
    ensures r.Ok? <==> Count(entry, '=') == 1
    ensures r.Err? ==> r.error == MalformedParam(entry)
  {
    var parts := Split(entry, '=');
    if |parts| != 2 then Err(MalformedParam(entry)) else Ok(["--" + parts[0], parts[1]])
  }

  /** The parameter pairs of `entries` in order; the first malformed entry is the error. */
  function ParamTokens(entries: seq<string>): (r: Result<seq<string>, CommandError>)
    ensures r.Ok? ==> |r.value| == 2 * |entries|
    ensures r.Err? ==> r.error.entry in entries
  {
    if entries == [] then Ok([])
    else
      var init :- ParamTokens(entries[..|entries| - 1]);
      var pair :- ParamPair(entries[|entries| - 1]);
      Ok(init + pair)
  }

  /** Every environment-variable entry, unchanged, after its own `-E`. */
  function EnvTokens(entries: seq<string>): (tokens: seq<string>)
    ensures |tokens| == 2 * |entries|
  {
    if entries == [] then []
    else EnvTokens(entries[..|entries| - 1]) + [EnvVarFlag, entries[|entries| - 1]]
  }

  function ParamSection(setting: Option<string>): Result<seq<string>, CommandError>
  {
    if Given(setting) then ParamTokens(Split(setting.value, ',')) else Ok([])
  }

  function EnvSection(setting: Option<string>): seq<string>
  {
    if Given(setting) then EnvTokens(Split(setting.value, ',')) else []
  }

  /** The tokens before the parameters: the subcommand, the deploy type, the model and the build. */
  function LeadingTokens(s: Settings): seq<string>
  {
    CommandHead + TypeToken(s.deployType) + Opt(ModelIdFlag, s.modelId) + Opt(BuildIdFlag, s.buildId)
  }

  /** The token list the builder produces, or the error it raises; `--timeout` comes last. */
  function CommandTokens(s: Settings): (r: Result<seq<string>, CommandError>)
    ensures r.Ok? ==> |r.value| >= 3 && r.value[..3] == CommandHead
    ensures r.Err? ==> Given(s.paramList) && r.error.entry in Split(s.paramList.value, ',')
  {
    match ParamSection(s.paramList)
    case Err(e) => Err(e)
    case Ok(params) =>
      Ok(LeadingTokens(s) + params + EnvSection(s.envVars)
         + Opt(InstanceFlag, s.instance) + Opt(ReplicasFlag, s.replicas)
         + Opt(IamRoleArnFlag, s.iamRoleArn) + Opt(EnvironmentFlag, s.environment)
         + Opt(TimeoutFlag, s.timeoutAfter))
  }

  /** The command line: the tokens joined by single spaces. */
  function CommandLine(s: Settings): (r: Result<string, CommandError>)
    ensures r.Ok? <==> CommandTokens(s).Ok?
    ensures r.Err? ==> r.error == CommandTokens(s).error
    ensures r.Ok? ==> "qwak " <= r.value
  {
    var tokens :- CommandTokens(s);
    Ok(Join(tokens, ' '))
  }

  /**
   * `deploy_command`: grows the token list flag by flag and joins it. A
   * malformed parameter entry aborts the build with that entry.
   */
  method DeployCommand(s: Settings) returns (line: Result<string, CommandError>)
    ensures line == CommandLine(s)
  {
    var command := CommandHead;
    if Given(s.deployType) {
      command := command + [s.deployType.value];
    }
    command := AppendFlag(command, ModelIdFlag, s.modelId);
    command := AppendFlag(command, BuildIdFlag, s.buildId);
    assert command == LeadingTokens(s);
    if Given(s.paramList) {
      var extended := AppendParams(command, s.paramList.value);
      if extended.Err? {
        return Err(extended.error);
      }
      command := extended.value;
    }
    ghost var params := ParamSection(s.paramList).value;
    assert command == LeadingTokens(s) + params;
    if Given(s.envVars) {
      command := AppendEnvVars(command, s.envVars.value);
    }
    assert command == LeadingTokens(s) + params + EnvSection(s.envVars);
    command := AppendFlag(command, InstanceFlag, s.instance);
    command := AppendFlag(command, ReplicasFlag, s.replicas);
    command := AppendFlag(command, IamRoleArnFlag, s.iamRoleArn);
    command := AppendFlag(command, EnvironmentFlag, s.environment);
    command := AppendFlag(command, TimeoutFlag, s.timeoutAfter);
    assert CommandTokens(s) == Ok(command);
    line := Ok(Join(command, ' '));
  }

  /** One `if setting: command.extend([flag, setting])` block. */
  method AppendFlag(command: seq<string>, flag: string, setting: Option<string>) returns (extended: seq<string>)
    ensures extended == command + Opt(flag, setting)
  {
    extended := command;
    if Given(setting) {
      extended := extended + [flag, setting.value];
    }
  }

  /**
   * The `PARAM_LIST` block: each comma-separated entry is split at `=` and
   * appended as `--key value`; the first entry that does not split into
   * exactly two pieces raises.
   */
  method AppendParams(command: seq<string>, paramList: string) returns (r: Result<seq<string>, CommandError>)
    ensures r == (match ParamTokens(Split(paramList, ',')) case Ok(t) => Ok(command + t) case Err(e) => Err(e))
  {
    var extended := command;
    var params := Split(paramList, ',');
    var i := 0;
    while i < |params|
      invariant 0 <= i <= |params|
      invariant ParamTokens(params[..i]).Ok?
      invariant extended == command + ParamTokens(params[..i]).value
    {
      var parts := Split(params[i], '=');
      if |parts| != 2 {
        ParamTokensStopsAt(params, i);
        return Err(MalformedParam(params[i]));
      }
      ParamTokensSnoc(params, i);
      ghost var done := ParamTokens(params[..i]).value;
      extended := extended + ["--" + parts[0], parts[1]];
      assert extended == command + (done + ["--" + parts[0], parts[1]]);
      i := i + 1;
    }
    assert params[..i] == params;
    r := Ok(extended);
  }

  /** The `ENV_VARS` block: each comma-separated entry is appended unchanged after `-E`. */
  method AppendEnvVars(command: seq<string>, envVars: string) returns (extended: seq<string>)
    ensures extended == command + EnvTokens(Split(envVars, ','))
  {
    extended := command;
    var envVarsList := Split(envVars, ',');
    var i := 0;
    while i < |envVarsList|
      invariant 0 <= i <= |envVarsList|
      invariant extended == command + EnvTokens(envVarsList[..i])
    {
      assert envVarsList[..i + 1][..i] == envVarsList[..i];
      ghost var done := EnvTokens(envVarsList[..i]);
      extended := extended + [EnvVarFlag, envVarsList[i]];
      assert extended == command + (done + [EnvVarFlag, envVarsList[i]]);
      i := i + 1;
    }
    assert envVarsList[..i] == envVarsList;
  }

  lemma ParamTokensSnoc(entries: seq<string>, i: nat)
    requires i < |entries|
    requires ParamTokens(entries[..i]).Ok? && ParamPair(entries[i]).Ok?
    ensures ParamTokens(entries[..i + 1]) == Ok(ParamTokens(entries[..i]).value + ParamPair(entries[i]).value)
  {
    assert entries[..i + 1][..i] == entries[..i];
  }

  /** When every entry before `i` is well formed and entry `i` is not, the whole list fails with entry `i`. */
  lemma {:induction false} ParamTokensStopsAt(entries: seq<string>, i: nat)
    requires i < |entries|
    requires ParamTokens(entries[..i]).Ok?
    requires ParamPair(entries[i]).Err?
    ensures ParamTokens(entries) == Err(MalformedParam(entries[i]))
  {
    var init := entries[..|entries| - 1];
    if i == |entries| - 1 {
      assert init == entries[..i];
    } else {
      assert init[..i] == entries[..i];
      ParamTokensStopsAt(init, i);
    }
  }

  /** An entry is well formed exactly when it holds one `=`; its pair gives back the entry. */
  lemma ParamPairShape(entry: string)
    ensures ParamPair(entry).Ok? <==> Count(entry, '=') == 1
    ensures ParamPair(entry).Ok? ==>
      var pair := ParamPair(entry).value;
      |pair| == 2 && pair[0][..2] == "--" && '=' !in pair[0][2..] && pair[0][2..] + "=" + pair[1] == entry
  {
    var parts := Split(entry, '=');
    if |parts| == 2 {
      JoinSplit(entry, '=');
      JoinCons(parts[0], parts[1..], '=');
      assert parts[1..] == [parts[1]];
      assert ("--" + parts[0])[2..] == parts[0];
    }
  }

  /** The parameter list builds exactly when every entry is well formed. */
  lemma {:induction false} ParamTokensOkIff(entries: seq<string>)
    ensures ParamTokens(entries).Ok? <==> forall i :: 0 <= i < |entries| ==> ParamPair(entries[i]).Ok?
  {
    if entries != [] {
      var n := |entries|;
      var init := entries[..n - 1];
      ParamTokensOkIff(init);
      assert forall i :: 0 <= i < n - 1 ==> init[i] == entries[i];
    }
  }

  /** Each well-formed `PARAM_LIST` entry becomes `--key value`, in input order. */
  lemma {:induction false} ParamTokensPairs(entries: seq<string>)
    requires ParamTokens(entries).Ok?
    ensures |ParamTokens(entries).value| == 2 * |entries|
    ensures forall i :: 0 <= i < |entries| ==>
      ParamPair(entries[i]).Ok? && ParamTokens(entries).value[2 * i..2 * i + 2] == ParamPair(entries[i]).value
  {
    ParamTokensOkIff(entries);
    if entries != [] {
      var n := |entries|;
      var init := entries[..n - 1];
      ParamTokensPairs(init);
      var t := ParamTokens(entries).value;
      var u := ParamTokens(init).value;
      assert t == u + ParamPair(entries[n - 1]).value;
      forall i | 0 <= i < n
        ensures t[2 * i..2 * i + 2] == ParamPair(entries[i]).value
      {
        if i < n - 1 {
          assert init[i] == entries[i];
          assert t[2 * i..2 * i + 2] == u[2 * i..2 * i + 2];
        } else {
          assert t[2 * i..2 * i + 2] == t[|u|..];
        }
      }
    }
  }

  /** A failing parameter list fails with its first malformed entry. */
  lemma {:induction false} ParamTokensFirstError(entries: seq<string>)
    requires ParamTokens(entries).Err?
    ensures exists i ::
      && 0 <= i < |entries|
      && ParamPair(entries[i]).Err?
      && ParamTokens(entries).error == MalformedParam(entries[i])
      && (forall j :: 0 <= j < i ==> ParamPair(entries[j]).Ok?)
  {
    var n := |entries|;
    var init := entries[..n - 1];
    if ParamTokens(init).Err? {
      ParamTokensFirstError(init);
      var i :|
        && 0 <= i < n - 1
        && ParamPair(init[i]).Err?
        && ParamTokens(init).error == MalformedParam(init[i])
        && (forall j :: 0 <= j < i ==> ParamPair(init[j]).Ok?);
      assert init[i] == entries[i];
      assert forall j :: 0 <= j < i ==> init[j] == entries[j];
    } else {
      ParamTokensOkIff(init);
      assert forall j :: 0 <= j < n - 1 ==> init[j] == entries[j];
    }
  }

  /** Each `ENV_VARS` entry appears unchanged after its own `-E`, in input order. */
  lemma {:induction false} EnvTokensShape(entries: seq<string>)
    ensures |EnvTokens(entries)| == 2 * |entries|
    ensures forall i :: 0 <= i < |entries| ==>
      EnvTokens(entries)[2 * i] == EnvVarFlag && EnvTokens(entries)[2 * i + 1] == entries[i]
  {
    if entries != [] {
      var n := |entries|;
      EnvTokensShape(entries[..n - 1]);
    }
  }

  /** The command always starts with the CLI's deploy subcommand, then the deploy type when one is given. */
  lemma CommandStartsWithHead(s: Settings)
    requires CommandTokens(s).Ok?
    ensures |CommandTokens(s).value| >= 3
    ensures CommandTokens(s).value[..3] == ["qwak", "models", "deploy"]
    ensures Given(s.deployType) ==> CommandTokens(s).value[3] == s.deployType.value
  {
  }

  /** `--timeout` and its value close the command whenever the setting is given, whatever the deploy type. */
  lemma TimeoutFlagLast(s: Settings)
    requires CommandTokens(s).Ok? && Given(s.timeoutAfter)
    ensures
      var t := CommandTokens(s).value;
      |t| >= 5 && t[|t| - 2] == TimeoutFlag && t[|t| - 1] == s.timeoutAfter.value
  {
  }

  /** The builder fails exactly when a given `PARAM_LIST` holds an entry without exactly one `=`. */
  lemma CommandFailsIff(s: Settings)
    ensures CommandTokens(s).Err? <==>
      Given(s.paramList) && exists e :: e in Split(s.paramList.value, ',') && Count(e, '=') != 1
  {
    if Given(s.paramList) {
      var entries := Split(s.paramList.value, ',');
      ParamTokensOkIff(entries);
      forall i | 0 <= i < |entries|
        ensures ParamPair(entries[i]).Ok? <==> Count(entries[i], '=') == 1
      {
        ParamPairShape(entries[i]);
      }
      if CommandTokens(s).Err? {
        var i :| 0 <= i < |entries| && ParamPair(entries[i]).Err?;
        assert entries[i] in entries;
      }
    }
  }

  /** The deploy type is not validated: any value, or none, leaves success or failure as it was. */
  lemma DeployTypeNotValidated(s: Settings, deployType: Option<string>)
    ensures CommandTokens(s.(deployType := deployType)).Ok? <==> CommandTokens(s).Ok?
  {
  }

  /** Reading the command line back at single spaces gives the tokens, when no token holds a space. */
  lemma CommandLineRoundTrip(s: Settings)
    requires CommandTokens(s).Ok?
    requires forall i :: 0 <= i < |CommandTokens(s).value| ==> ' ' !in CommandTokens(s).value[i]
    ensures Split(CommandLine(s).value, ' ') == CommandTokens(s).value
  {
    SplitJoin(CommandTokens(s).value, ' ');
  }

  /** Two pieces without the separator, joined by it, split back into the two. */
  lemma SplitTwoPieces(p: string, q: string, sep: char)
    requires sep !in p && sep !in q
    ensures Split(p + [sep] + q, sep) == [p, q]
  {
    SplitAfterPiece(p, q, sep);
    SplitPiece(q, sep);
  }

  /** Any key and value without `=` make a well-formed entry whose pair is `--key value`. */
  lemma ParamPairOf(key: string, value: string)
    requires '=' !in key && '=' !in value
    ensures ParamPair(key + "=" + value) == Ok(["--" + key, value])
  {
    SplitTwoPieces(key, value, '=');
  }
}
