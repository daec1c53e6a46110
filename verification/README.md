# environment:push and the platform question helper, in Dafny

This project models two parts of the Platform.sh command-line client.

**`environment:push`** (`EnvironmentPushCommand::execute`) pushes a git ref to
a Platform.sh environment. It goes through these steps in order:

1. Validate the source ref. It must not be empty, must not contain `:`, and
   `git rev-parse --verify` must succeed.
2. Resolve the target branch. A truthy `--target` wins, then the selected
   environment, then the current git branch.
3. Ask for confirmation before pushing to `master`, the production branch.
4. Look the target up remotely and announce whether it is new or existing.
5. Decide on activation. It applies only to a new or inactive
   non-production environment, and needs `--activate` or an interactive
   "yes". When activating, decide the parent: `--parent`, else `master` if
   that is the only environment, else the operator's answer.
6. Make sure the git remote exists.
7. Build the git arguments, and the SSH options and process environment
   that carry the "do not wait" signal.
8. Push.
9. On success, clear the environment list cache. When an environment was
   selected and its SSH URL can be read, also clear its relationships
   cache; a missing SSH URL skips that step. Then hand over to
   `environment:activate`, or exit with 0.

The command's collaborators become inputs:

- The command-line input is the value `Input`.
- Everything the command learns from outside is the value `World`: git,
  the API, the operator's answers, configuration and the selection.
- Everything it does to the outside is an `Event` appended to the trace that
  `EnvironmentPush.Execute` returns. This covers git calls, API calls,
  questions, remote set-up, the push, cache clears and the activation
  command.

`Execute` is an imperative method built like the source. It calls
`FindTarget`, `DecideActivation`, `Transfer` (which uses the
`BuildGitArgs` loop), `PushToTarget` and `FollowUp`. It is proved to return
exactly `ExpectedOutcome` and `ExpectedTrace`, the phase-by-phase
specification. The properties the command promises are lemmas over that
specification, stated with `Count` (how often an event kind occurs) and
`Precedes` (every event of one kind comes before every event of another).
`PushPhases` cuts a run that reaches the push into what comes before the
push and what follows it. `PushProperties` states the properties.

**`PlatformQuestionHelper`** has three pure operations:

- `confirm` honours `--yes` and `--no`, and otherwise asks a yes/no question
  whose hint shows the default.
- `choose` shortcuts a single item. Otherwise it asks a choice question over
  the item values and maps the answer back to its key, or reports an
  invalid value.
- `askInput` formats a free-text prompt with an optional default.

The terminal is an oracle: a function from the question shown to the
answer given.

The push command's own question service (`Service\QuestionHelper`) is not
part of this model. It is not `PlatformQuestionHelper` and takes other
arguments. Its answers are the `World` fields `confirmsMaster`,
`confirmsActivate` and `parentAnswer`.

The `choose` doc comment says `$default` is a key of `$items`. The code
searches for it among the values. The model follows the code.

## Model

| member | source | states |
|---|---|---|
| EnvironmentPush.Execute | src/Command/Environment/EnvironmentPushCommand.php:77-216 | the run's exit code and its trace of outside calls are exactly the phase-by-phase specification; no project root is the RootNotFound outcome with nothing done |
| EnvironmentPush.FindTarget | src/Command/Environment/EnvironmentPushCommand.php:103-114 | the target is a truthy --target, else the selected environment's id, else a truthy current branch, else none; the current branch is read only when the first two give nothing |
| EnvironmentPush.DecideActivation | src/Command/Environment/EnvironmentPushCommand.php:134-156 | activation holds exactly for a new or inactive non-production target with --activate or an interactive yes; when activating, the parent is --parent, else master when it is the only environment, else the answer; the questions asked and the environment lookup are exactly those of the specification |
| EnvironmentPush.BuildGitArgs | src/Command/Environment/EnvironmentPushCommand.php:164-173 | the loop yields push, the remote name and `<source>:refs/heads/<target>`, followed by the flags of the set options in the fixed order |
| EnvironmentPush.SelectedPushFlags | src/Command/Environment/EnvironmentPushCommand.php:169-173 | selecting the three push options in list order gives exactly the flag list |
| EnvironmentPush.FlagArgsShape | src/Command/Environment/EnvironmentPushCommand.php:169-173 | each of --force, --force-with-lease, --set-upstream is passed iff its option is set, nothing else is passed, and they keep that order |
| EnvironmentPush.GitArgsShape | src/Command/Environment/EnvironmentPushCommand.php:164-168 | the first three arguments are push, the remote and the refspec naming the target; the rest are exactly the flags |
| EnvironmentPush.NoWaitTransportShape | src/Command/Environment/EnvironmentPushCommand.php:175-181 | waiting needs no SSH option and no variable; not waiting sets PLATFORMSH_PUSH_NO_WAIT to 1 and sends exactly that variable over SSH |
| EnvironmentPush.Transfer | src/Command/Environment/EnvironmentPushCommand.php:158-185 | remote set-up, SSH command and push happen in that order, with the assembled arguments and environment |
| EnvironmentPush.FollowUp | src/Command/Environment/EnvironmentPushCommand.php:190-215 | after a successful push the caches are cleared (a missing SSH URL skips the relationships cache) and the exit code is the activation command's, or 0 when not activating |
| EnvironmentPush.PushToTarget | src/Command/Environment/EnvironmentPushCommand.php:124-215 | from the remote lookup on, the exit code and the trace are those of the specification; a failed push exits with 1 |
| PushPhases.BeforePushCount | src/Command/Environment/EnvironmentPushCommand.php:85-182 | how often each kind of event occurs before the push, as a closed form of the inputs |
| PushPhases.FollowUpCount | src/Command/Environment/EnvironmentPushCommand.php:186-215 | how often each kind of event occurs after the push: nothing after a failure; otherwise one environment cache clear, one relationships clear when there is an SSH URL, and one activation when activating |
| PushPhases.ChecksBeforeLookup | src/Command/Environment/EnvironmentPushCommand.php:87-126 | before the push, rev-parse and (for master) the production question come before the remote lookup |
| PushPhases.FollowUpOrder | src/Command/Environment/EnvironmentPushCommand.php:190-212 | the environment cache is cleared before the activation runs |
| PushPhases.BeforePushActivationQuestion | src/Command/Environment/EnvironmentPushCommand.php:138-144 | the activation question is asked before the push exactly when activation is possible, --activate is absent and the session is interactive |
| PushPhases.BeforePushTransport | src/Command/Environment/EnvironmentPushCommand.php:158-182 | the git remote and the SSH command are set up before the push |
| PushPhases.CutAtPush | src/Command/Environment/EnvironmentPushCommand.php:85-215 | a run that reaches the push is what comes before it, the push, and what follows it, with the counts of both sides |
| PushProperties.MalformedSourceFailsFirst | src/Command/Environment/EnvironmentPushCommand.php:88-92 | an empty source or one containing `:` exits with 1 having only set the repository directory (no rev-parse) |
| PushProperties.EarlyFailuresHaveNoEffects | src/Command/Environment/EnvironmentPushCommand.php:87-122 | an invalid source, no target, or a declined production push exits with 1 and makes no API call, remote set-up, push, cache clear or activation |
| PushProperties.EarlyTraceLacks | src/Command/Environment/EnvironmentPushCommand.php:87-122 | a run that stops before the push holds no lookup, question for the parent, push, cache clear or activation |
| PushProperties.PushExactlyWhenReached | src/Command/Environment/EnvironmentPushCommand.php:87-185 | there is one push iff the run gets past validation, target resolution and the production guard, and none otherwise |
| PushProperties.PushNeedsValidation | src/Command/Environment/EnvironmentPushCommand.php:87-114 | a push implies a valid source and a resolved target |
| PushProperties.ReachedCount | src/Command/Environment/EnvironmentPushCommand.php:85-215 | the count of each event kind over a pushing run is the count before the push, plus the push, plus the count after it |
| PushProperties.ReachedPushOrder | src/Command/Environment/EnvironmentPushCommand.php:92-185 | rev-parse precedes the remote lookup, which precedes the push |
| PushProperties.ReachedRevParseFirst | src/Command/Environment/EnvironmentPushCommand.php:92-185 | rev-parse precedes the push |
| PushProperties.PushOnlyAfterValidation | src/Command/Environment/EnvironmentPushCommand.php:87-185 | on every run, rev-parse precedes the lookup and the push, and the lookup precedes the push |
| PushProperties.PushedRefspecNamesTarget | src/Command/Environment/EnvironmentPushCommand.php:103-167 | the pushed refspec names the target picked by precedence |
| PushProperties.CurrentBranchReadOnlyAsFallback | src/Command/Environment/EnvironmentPushCommand.php:105-110 | the current git branch is read once, only when neither --target nor a selected environment gives the target |
| PushProperties.ProductionDeclined | src/Command/Environment/EnvironmentPushCommand.php:116-122 | declining the production question exits with 1, and that question is the last thing done |
| PushProperties.ProductionConfirmedOnce | src/Command/Environment/EnvironmentPushCommand.php:116-144 | a confirmed push to master asks one question, the production one |
| PushProperties.ProductionConfirmedFirst | src/Command/Environment/EnvironmentPushCommand.php:116-126 | the production question precedes the remote lookup and the push |
| PushProperties.ProductionNotActivated | src/Command/Environment/EnvironmentPushCommand.php:134-136 | master is never activated |
| PushProperties.ProductionAsksNoParent | src/Command/Environment/EnvironmentPushCommand.php:134-156 | no parent question is asked for master |
| PushProperties.ProductionOutcome | src/Command/Environment/EnvironmentPushCommand.php:184-215 | a confirmed push to master exits with 0 on success and 1 on failure |
| PushProperties.ActivationExactlyWhen | src/Command/Environment/EnvironmentPushCommand.php:136-144 | environment:activate runs once exactly when the push succeeds and activation holds, and never otherwise |
| PushProperties.ActivationQuestionAsked | src/Command/Environment/EnvironmentPushCommand.php:138-144 | the activation question is asked iff the target may be activated, --activate is absent and the session is interactive |
| PushProperties.ActivationIsLast | src/Command/Environment/EnvironmentPushCommand.php:203-212 | when activating after a successful push, the activation with its arguments is the last step and its exit code is the command's |
| PushProperties.ActivateArgsNamed | src/Command/Environment/EnvironmentPushCommand.php:204-210 | the activation gets the target as --environment, the parent as --parent, --yes and the --no-wait choice |
| PushProperties.ParentLookup | src/Command/Environment/EnvironmentPushCommand.php:147-154 | the environment list is fetched once iff activating without a truthy --parent; the parent question is asked once iff, in addition, the list is not exactly [master] |
| PushProperties.ParentQuestionAsked | src/Command/Environment/EnvironmentPushCommand.php:150-153 | the parent question suggests master and offers every environment, and its answer is the parent |
| PushProperties.PushArguments | src/Command/Environment/EnvironmentPushCommand.php:164-185 | the push carries the remote, the refspec and exactly the set flags, and sets the no-wait variable to 1 iff not waiting |
| PushProperties.TransportSetUp | src/Command/Environment/EnvironmentPushCommand.php:158-182 | the remote and the SSH command are each set up once on a pushing run |
| PushProperties.TransportBeforePush | src/Command/Environment/EnvironmentPushCommand.php:158-185 | remote set-up and SSH set-up precede the push |
| PushProperties.TransportForwardsNoWait | src/Command/Environment/EnvironmentPushCommand.php:175-185 | the SSH command forwards exactly the variables the push sets |
| PushProperties.FailedPushStops | src/Command/Environment/EnvironmentPushCommand.php:185-188 | a failed push exits with 1 and is the last step |
| PushProperties.FailedPushClearsNothing | src/Command/Environment/EnvironmentPushCommand.php:185-191 | after a failed push no cache is cleared |
| PushProperties.SuccessfulPushClearsCaches | src/Command/Environment/EnvironmentPushCommand.php:190-201 | a successful push clears the environment cache once and the relationships cache once when the selected environment has an SSH URL |
| PushProperties.SuccessfulPushClearsProjectCache | src/Command/Environment/EnvironmentPushCommand.php:190-215 | the project's environment cache is cleared after a successful push, which exits with 0 when not activating |
| PushProperties.CachesClearedAfterPush | src/Command/Environment/EnvironmentPushCommand.php:185-197 | both cache clears come after the push |
| PushProperties.CacheClearedBeforeActivation | src/Command/Environment/EnvironmentPushCommand.php:190-212 | the environment cache clear comes before the activation |
| QuestionHelper.ConfirmPromptInjective | src/Helper/PlatformQuestionHelper.php:31 | the confirmation prompt shows its text and its default: different (text, default) pairs give different prompts |
| QuestionHelper.Confirm | src/Helper/PlatformQuestionHelper.php:29-45 | --yes alone answers yes and --no alone answers no without asking, writing the prompt and the answer; both or neither asks the terminal with the given default and returns its answer |
| QuestionHelper.ConfirmShortCircuit | src/Helper/PlatformQuestionHelper.php:33-41 | with exactly one of --yes and --no the terminal's answers make no difference |
| QuestionHelper.ConfirmEchoReadsBack | src/Helper/PlatformQuestionHelper.php:35-40 | the written line is the prompt followed by y exactly when the answer is yes |
| QuestionHelper.Values | src/Helper/PlatformQuestionHelper.php:64 | the item values, position by position |
| QuestionHelper.IndexOf | src/Helper/PlatformQuestionHelper.php:65 | the first position of a value in a list, or none iff it is absent |
| QuestionHelper.ItemPosition | src/Helper/PlatformQuestionHelper.php:74 | the position of the first item holding a value, or none iff no item holds it |
| QuestionHelper.KeyOfAgreesWithValues | src/Helper/PlatformQuestionHelper.php:64-75 | searching the array for the answer finds the item at the answer's first position in the value list |
| QuestionHelper.DefaultIndexOf | src/Helper/PlatformQuestionHelper.php:65 | no default gives no index; a default not among the values is reported missing; otherwise the index holds the default |
| QuestionHelper.ChoiceQuestionShape | src/Helper/PlatformQuestionHelper.php:64-67 | the choices are the values in order, the default index is the default's first position, and five attempts are allowed |
| QuestionHelper.Choose | src/Helper/PlatformQuestionHelper.php:59-80 | a single item gives its key without asking; otherwise it fails with "Invalid value: <answer>" iff the answer is not a value, and else returns a key holding the answer |
| QuestionHelper.ChooseFirstMatch | src/Helper/PlatformQuestionHelper.php:73-79 | the key returned is that of the first item holding the answer |
| QuestionHelper.AskInputPromptShape | src/Helper/PlatformQuestionHelper.php:95-98 | the prompt is the text, then ` <question>[default]</question>` exactly when there is a default, then `: ` |
| QuestionHelper.AskInputPromptInjective | src/Helper/PlatformQuestionHelper.php:95-98 | for the same text, different defaults give different prompts |
| QuestionHelper.AskInput | src/Helper/PlatformQuestionHelper.php:93-102 | the question handed to the terminal has the formatted prompt as its text and the given default as its default, and the terminal's answer to it is returned |
| QuestionHelper.AskInputShowsDefault | src/Helper/PlatformQuestionHelper.php:95-101 | the question asked shows its default in its text when there is one, and different defaults for the same text ask different questions |
| PushPhases.ProductionQuestionsDiffer | src/Command/Environment/EnvironmentPushCommand.php:117-143 | the production guard's question differs from the activation question for master |

## Left out

- The exception raised when there is no project root is the outcome
  `RootNotFound`. Finding the project root on disk is not modelled.
- Messages written to stderr are not events, except the status line that
  says whether the environment is new or existing. This leaves out the
  empty-source, invalid-ref and no-target errors and the very-verbose
  "Source revision" line.
- `configure()` and the constructor only declare options and inject
  services, so they are not modelled.
- The services the command calls are oracles or trace events, and their
  own behaviour is not modelled: git, SSH command construction, the local
  project, the API client, the relationships cache, the activity monitor,
  configuration and `runOtherCommand`.
- How the command gets its `shouldWait` answer from `--wait`/`--no-wait` is
  not modelled. It is the `World` field `shouldWait`. The `--no-wait` value
  passed to `environment:activate` is the `Input` field `noWait`.
- The `Service\QuestionHelper` used by the push command is not part of this
  model. Its answers are oracle values.
- Symfony's `QuestionHelper::ask` is not modelled: terminal rendering,
  re-asking up to the maximum attempts, validation of choice answers, and
  turning an empty answer into the default. It is an oracle, and the
  question records the default and the number of attempts.
- QuestionHelper.Choose: `array_search` in PHP compares loosely (`==`).
  The model compares strings exactly, so PHP's numeric-string equalities
  (such as "1" and "01") are not captured.
- QuestionHelper.Choose: items are a sequence of key/value pairs. The model
  does not require the keys to be distinct, as a PHP array's are, and
  values are strings, not mixed values.
- QuestionHelper.Choose: with no items at all, Symfony's refusal of an
  empty choice list is not modelled. The model asks the oracle and reports
  its answer as invalid.
- QuestionHelper.Confirm: whether an option is defined and set is one
  map from option name to value. `hasOption`/`getOption` are not modelled
  separately.
- `WelcomeCommand` is not part of this model: it only prints and delegates.
- Default argument values are not modelled: every call passes all its
  arguments. This covers `confirm`'s default of yes, `choose`'s default
  text and null default, and `askInput`'s null default.
- `choose` turns autocompletion off for its question. Autocompletion is
  terminal behaviour, so the model's choice question has no autocompletion
  field.
