# deploy-action, modelled in Dafny

A model of `register_deploy.py`, the script behind the Qwak deploy GitHub
Action. It has four parts, plus the entry point that ties them together:

- **Status taxonomy** (`status.dfy`). The closed table from the platform's
  integer status codes 1 to 13 to their names. Every other code gets the name
  `UNKNOWN_STATUS`. Names fall into three classes: keep waiting (initiating,
  pending), success (successful deployment) and failure (everything else).
- **Poller** (`poller.dfy`). `wait_for_deployment` is the method
  `WaitForDeployment`, with the source's loop:
  - time is whole seconds, and each iteration sleeps 10 s before it queries;
  - the loop runs while fewer than `60 * timeout` seconds have elapsed;
  - it logs a name only when it differs from the previous one;
  - it stops at the first name that is not initiating or pending.

  The remote status service is the finite sequence of codes it answers, one
  per query. A query after the last answer stands for the SDK call raising.
  The method is proved against the specification functions `Poll`,
  `PollsUsed` and `Collapse`. The lemmas beside it characterise those
  functions.
- **Command builder** (`command.dfy`). `deploy_command` is the method
  `DeployCommand`. It grows the token list flag by flag, including the
  `PARAM_LIST` and `ENV_VARS` loops, and joins it with spaces. It is proved
  against `CommandTokens`/`CommandLine`. A `PARAM_LIST` entry that does not
  split into exactly a key and a value at `=` is the builder's error.
- **Output scraper** (`scraper.dfy`). `re.search(r'<label>\s+│\s+([\w-]+)',
  stdout)` is a pure leftmost search with greedy runs, followed by `.strip()`.
  It is proved sound and complete against `RegexMatchAt`, a declarative
  reading of the pattern.
- **Entry point** (`action.dfy`). The `__main__` block is the method
  `RunAction`, proved against the function `ActionOutcome`. Its result is the
  exit code and the lines appended to the workflow's environment file
  (`deploy-id=…`, `deploy-status=…` or `TIMEOUT`).

`strings.dfy` models the Python string operations the script uses:
`str.split` with a one-character separator, `str.join` and `str.strip`.
`basics.dfy` holds `Option` and `Result`.

Two integer settings must not be confused:
- `INPUT_TIMEOUT_AFTER` is the poller's window in minutes (default 30), read at
  line 150.
- `TIMEOUT_AFTER` is passed through to the CLI as `--timeout`, at lines 90-92.

## Model

| member | source | states |
|---|---|---|
| DeployStatus.StatusName | register_deploy.py:31-32 | total lookup; the result is `UNKNOWN_STATUS` exactly when the code is outside 1..13 |
| DeployStatus.StatusNamesListed | register_deploy.py:13-28 | each code 1..13 has exactly its documented name |
| DeployStatus.StatusNameInjective | register_deploy.py:13-28 | distinct documented codes have distinct names |
| DeployStatus.StatusNameUnquoted | register_deploy.py:13-32 | no status name, the sentinel included, holds `=` |
| DeployStatus.CodeFrom | register_deploy.py:13-32 | not a source operation: the reverse lookup that states the bijection below; a code it finds has the given name, and finding none means no code from there on has it |
| DeployStatus.CodeOfStatusName | register_deploy.py:13-32 | the table is a bijection between 1..13 and their names, and no documented name is the sentinel |
| DeployStatus.ClassifyStatusName | register_deploy.py:124-133 | classifying a code's name is waiting for codes 1 and 2, success for 3, failure for all others, the sentinel included |
| DeployStatus.Classify | register_deploy.py:124-133 | a name keeps the poll going exactly when it is the initiating or pending name, and ends it successfully exactly when it is the successful-deployment name; every other name ends it as a failure |
| Poller.WindowPolls | register_deploy.py:109-111 | the number of iterations the window admits: the least count whose elapsed 10 s steps reach `60 * timeout` |
| Poller.Collapse | register_deploy.py:119-121 | the log starts with the first observed name, ends with the last one, never repeats a name on consecutive lines and is no longer than the observations |
| Poller.Poll | register_deploy.py:97-144 | a timeout carries the deployment id and the minutes; a failed query carries the id |
| Poller.PollsUsed | register_deploy.py:109-133 | the wait never queries more than the window admits or the service answers |
| Poller.WaitForDeployment | register_deploy.py:97-144 | the loop's outcome is `Poll`, its query count is `PollsUsed`, and its log is the observed names with consecutive repeats collapsed |
| Poller.LogIfChanged | register_deploy.py:119-121 | a poll extends the log exactly when its name differs from the last observed one |
| Poller.PollStatusClass | register_deploy.py:124-133 | a success carries `SUCCESSFUL_DEPLOYMENT`; a failure carries a failure-class name; neither is ever initiating or pending |
| Poller.PollStatusObserved | register_deploy.py:116-133 | a settled wait returns the name of the last answer it queried |
| Poller.PollSettlesOnFirstTerminal | register_deploy.py:109-133 | the first answer in the window that does not keep waiting decides success or failure, and it is the last one queried |
| Poller.PollSettlesOnFirstTerminalCode | register_deploy.py:124-133 | the same on codes: code 3 succeeds; any code other than 1, 2 and 3 fails with its name |
| Poller.PollTimesOutIff | register_deploy.py:109-139 | a timeout happens exactly when every answer in the window keeps waiting, and then the window is used in full |
| Poller.PollQueryFailsIff | register_deploy.py:114-144 | the query fails exactly when the answers run out inside the window while all keep waiting |
| Poller.NoWindowNoPolls | register_deploy.py:109-139 | a window of zero or fewer minutes makes no query and times out |
| Poller.PollsPerMinute | register_deploy.py:109-111 | at most `6 * timeout` queries, and none when `timeout <= 0` |
| Poller.PollIgnoresLaterAnswers | register_deploy.py:109-133 | answers after the last one queried change neither the outcome nor the query count |
| Poller.CollapseRepeatFree | register_deploy.py:119-121 | a sequence without consecutive repeats is its own log |
| Poller.CollapseKeepsNames | register_deploy.py:119-121 | every observed name is logged, and only observed names are |
| Poller.CollapseConstant | register_deploy.py:119-121 | a run of one repeated name logs a single line |
| Poller.SucceedsAfterTwoTransitions | register_deploy.py:109-128 | answers 1, 2, 3 succeed after three queries and log three lines |
| Poller.FailureEndsWaitEarly | register_deploy.py:109-133 | answers 2 then 4 fail after two queries with `FAILED_DEPLOYMENT`, whatever follows |
| Poller.PendingForOneMinuteTimesOut | register_deploy.py:109-139 | one minute of pending answers times out after six queries and 60 s, logging one line |
| PyStrings.Split | register_deploy.py:57 | `str.split` yields one more piece than there are separators, and no piece holds the separator |
| PyStrings.JoinSplit | register_deploy.py:57 | joining the pieces of a split gives back the string |
| PyStrings.SplitJoin | register_deploy.py:94 | splitting a join of separator-free pieces gives back the pieces |
| PyStrings.Join | register_deploy.py:94 | the joined string starts with the first piece, followed by the separator when there are more pieces |
| PyStrings.Strip | register_deploy.py:190 | the result is no longer than the input, neither starts nor ends with whitespace, and is empty exactly when the input is all whitespace |
| PyStrings.StripIsTrim | register_deploy.py:190 | `strip` returns a slice `s[i..j]` of its input with only whitespace before `i` and after `j`; with the row above, it drops exactly the leading and trailing whitespace |
| PyStrings.StripUntrimmed | register_deploy.py:190 | `strip` leaves a string that neither starts nor ends with whitespace unchanged |
| CommandBuilder.DeployCommand | register_deploy.py:36-94 | the command line built flag by flag is `CommandLine`, or the error of the first malformed parameter entry |
| CommandBuilder.AppendFlag | register_deploy.py:45-47 | one `if setting:` block appends the flag and its value exactly when the setting is set and non-empty |
| CommandBuilder.AppendParams | register_deploy.py:55-60 | the `PARAM_LIST` loop appends the pairs of all entries, or stops with the first malformed one |
| CommandBuilder.AppendEnvVars | register_deploy.py:63-67 | the `ENV_VARS` loop appends `-E entry` for every comma-separated entry |
| CommandBuilder.ParamPair | register_deploy.py:59-60 | an entry makes a pair exactly when it holds one `=`; otherwise the error names that entry |
| CommandBuilder.ParamTokens | register_deploy.py:55-60 | a built list has two tokens per entry; a failure names one of the entries |
| CommandBuilder.EnvTokens | register_deploy.py:62-67 | two tokens per environment-variable entry |
| CommandBuilder.CommandTokens | register_deploy.py:36-92 | a built token list starts with `qwak models deploy`; a failure comes from a given `PARAM_LIST` and names one of its entries |
| CommandBuilder.CommandLine | register_deploy.py:94 | the line is built exactly when the tokens are, fails with the same entry otherwise, and starts with `qwak ` |
| CommandBuilder.ParamTokensStopsAt | register_deploy.py:58-60 | after well-formed entries, the first malformed entry is the error of the whole list |
| CommandBuilder.ParamPairShape | register_deploy.py:59-60 | an entry is well formed exactly when it holds one `=`; its pair is `--key` and `value`, which rebuild the entry |
| CommandBuilder.ParamTokensOkIff | register_deploy.py:55-60 | the parameter list builds exactly when every entry is well formed |
| CommandBuilder.ParamTokensPairs | register_deploy.py:55-60 | entry `i` becomes tokens `2i` and `2i+1`, in input order |
| CommandBuilder.ParamTokensFirstError | register_deploy.py:55-60 | a failing list fails with its first malformed entry |
| CommandBuilder.EnvTokensShape | register_deploy.py:62-67 | entry `i` appears unchanged at token `2i+1`, after its own `-E` |
| CommandBuilder.CommandStartsWithHead | register_deploy.py:37-42 | the command starts with `qwak models deploy`, then the deploy type when given |
| CommandBuilder.TimeoutFlagLast | register_deploy.py:89-92 | when `TIMEOUT_AFTER` is given, `--timeout` and its value close the command, whatever the deploy type |
| CommandBuilder.CommandFailsIff | register_deploy.py:55-60 | the builder fails exactly when a given `PARAM_LIST` holds an entry without exactly one `=` |
| CommandBuilder.DeployTypeNotValidated | register_deploy.py:40-42 | any deploy type, or none, leaves success or failure unchanged |
| CommandBuilder.CommandLineRoundTrip | register_deploy.py:94 | splitting the command line at spaces gives back the tokens when no token holds a space |
| CommandBuilder.SplitTwoPieces | register_deploy.py:59 | two pieces without the separator, joined by it, split back into the two |
| CommandBuilder.ParamPairOf | register_deploy.py:59-60 | any `key=value` without further `=` becomes `--key value` |
| Scraper.RunEnd | register_deploy.py:182-186 | a greedy run of one character class ends at the first character outside it |
| Scraper.MatchAt | register_deploy.py:182-187 | a capture is non-empty and made of `[\w-]` characters only |
| Scraper.RunEndIs | register_deploy.py:182-186 | a run's end is pinned down by the characters around it |
| Scraper.MatchAtSound | register_deploy.py:182-187 | every capture is the group of a match of the pattern at that position, taken as far as the identifier characters go |
| Scraper.MatchAtGreedy | register_deploy.py:182-187 | wherever the pattern matches, the scraper captures, and its capture is the longest group that match allows |
| Scraper.FirstMatchFrom | register_deploy.py:183-187 | the reported position matches and no earlier one does; no result means no position matches |
| Scraper.Search | register_deploy.py:182-187 | a found group is a non-empty run of `[\w-]` characters |
| Scraper.SearchLeftmost | register_deploy.py:182-187 | `search` reports the group of the leftmost match, its identifier run ending at the end of the output or at a character outside `[\w-]`, and nothing exactly when the pattern matches nowhere |
| Scraper.TableRowCaptured | register_deploy.py:182-183 | a CLI table row `Deployment ID │ d-42 │` yields `d-42` |
| Scraper.Scrape | register_deploy.py:189-197 | a scraped deployment ID is never empty and is made of `[\w-]` characters only |
| Scraper.TokenUnstripped | register_deploy.py:190-194 | `.strip()` leaves a captured identifier unchanged |
| Scraper.TokenUnquoted | register_deploy.py:190 | an identifier holds no `=` |
| Scraper.ScrapeIdentifiers | register_deploy.py:189-209 | the scrape succeeds exactly when the deployment-ID row is found, whether or not a build ID is; it keeps both groups as found |
| Action.ReportLines | register_deploy.py:203-219 | two lines; each, split at `=`, reads back as exactly its key and the value written whenever that value holds no `=` |
| Action.WindowMinutes | register_deploy.py:150 | the window is `INPUT_TIMEOUT_AFTER` when set, 30 minutes otherwise |
| Action.Conclude | register_deploy.py:200-222 | after the wait the run exits with 0 or 1, and with 1 exactly when it writes nothing |
| Action.ActionOutcome | register_deploy.py:148-228 | the run exits with 0 or 1, with 1 exactly when it writes nothing, and with 0 only after a built command, a successful CLI run and a scraped deployment ID |
| Action.RunAction | register_deploy.py:148-228 | the entry point's exit code and appended lines are `ActionOutcome` |
| Action.Settle | register_deploy.py:200-222 | waiting on a scraped ID and reporting it gives `Conclude` applied to the poller's outcome |
| Action.ConcludeExit | register_deploy.py:200-222 | after the wait, the run exits with 0 and both lines, or with 1 and nothing; it exits with 1 exactly on a query failing with anything but `TimeoutError`, a missing environment file, or a timeout without an ID |
| Action.ExitZeroIffReported | register_deploy.py:148-228 | exit code 0 exactly when both lines are written, the first naming the scraped deployment; exit code 1 exactly when nothing is written |
| Action.ExitOneIff | register_deploy.py:148-228 | exit code 1 exactly on a malformed parameter list, a failing CLI, an output without a deployment ID, a status query failing with anything but `TimeoutError`, or a missing environment file |
| Action.ConcludeSettled | register_deploy.py:200-222 | the reported status is the poller's settled name, or `TIMEOUT` when the window closed or the query raised `TimeoutError` |
| Action.ReportedStatusSettled | register_deploy.py:200-222 | the reported status is `SUCCESSFUL_DEPLOYMENT`, `TIMEOUT` or a failure name, never initiating or pending |
| Action.ConcludeReadsBack | register_deploy.py:203-219 | a reported wait's lines split back at `=` into the keys, the ID and the reported status, whenever neither holds `=` |
| Action.ReportReadsBack | register_deploy.py:203-219 | every reported run's lines split back at `=` into `deploy-id` and the scraped ID, and `deploy-status` and the reported status |
| Action.FailedDeploymentExitsZero | register_deploy.py:200-205 | a deployment that settles as failed is still reported with exit code 0 and its failure name |
| Action.TimeoutReported | register_deploy.py:211-219 | a closed window, or a status query raising `TimeoutError`, is reported as `TIMEOUT` with exit code 0, since the scraped ID is never empty |
| Action.AfterDeployIgnoresBuildId | register_deploy.py:193-203 | once the CLI has succeeded, only the scraped deployment ID matters |
| Action.BuildIdIrrelevant | register_deploy.py:193-203 | two outputs naming the same deployment end the run the same way, whatever their build IDs |
| Action.DefaultWindow | register_deploy.py:150 | without `INPUT_TIMEOUT_AFTER` the window is 30 minutes, so at most 180 queries |

## Left out

- Process I/O: `subprocess.Popen`, `wait` and `communicate` (lines 160-169).
  The CLI's exit code and standard output are inputs of `RunAction`. Its
  standard error, which is only printed, is not modelled.
- The SDK: `QwakClient` and `get_deployment_status`. The status service is the
  sequence of codes it answers. A query past the last answer stands for the
  call raising. Which exception it raises matters: the wait re-raises it
  (line 144), and a `TimeoutError` reaches the timeout handler (line 211)
  while anything else reaches the generic one (line 223). The input
  `queryErrorIsTimeout` says which of the two the raised exception is.
- The clock. `time.time()` and `time.sleep()` become integer seconds advancing
  by exactly 10 per iteration. A slow query, which would make a real
  iteration take longer, is not modelled.
- Printing: the progress lines' text, the command echo, the elapsed-time line
  with its float `divmod` and `{:.2f}`, and every error message. The log is
  the list of names a progress line is printed for.
- `os.getenv` becomes the `Settings` record, with `None` for an unset
  variable, and the `timeoutSetting` and `envFileSet` inputs of `RunAction`.
- The parse `int(os.getenv('INPUT_TIMEOUT_AFTER', 30))`. The window is given as
  an integer, or absent. A value `int` cannot parse, which ends the script
  before the command is built, is not modelled.
- The environment file. The model returns the lines the script appends. An
  unset `GITHUB_ENV` path makes `open` fail, which ends the run with exit
  code 1 and nothing written; `envFileSet` models that. Other I/O failures
  are not modelled.
- Exceptions and `exit(1)` become result values: `Result` in the builder,
  `PollOutcome` in the poller, and `RunResult` at the entry point. The
  `ValueError` of a malformed parameter entry is raised before the `try`
  block, and the run still ends with exit code 1. `exit(1)` raises
  `SystemExit`, which `except Exception` does not catch, so each `exit(1)`
  ends the run as written.
- `is` and `is not` on strings (lines 119 and 124) are modelled as equality.
  Every listed name is the one string object stored in the dictionary, and
  `UNKNOWN_STATUS` is the same constant literal of `_get_status_name` on
  every call, so identity and equality agree on the names compared here.
- Scraper: `\s` is ASCII whitespace (space, tab, line feed, carriage return,
  vertical tab, form feed), and `\w` is ASCII letters, digits and the
  underscore. Python's Unicode classes are wider. `.strip()` is modelled on
  the same ASCII whitespace.
- A build resolved from tags rather than a build ID is not part of this
  model.
