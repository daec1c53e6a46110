/** The `environment:push` command: validate the source ref, resolve the
    target branch, guard production, decide on activation and its parent,
    build the git push, run it over an SSH transport that may carry the
    "do not wait" signal, then clear caches and hand over to
    `environment:activate`.

    Everything the command learns from outside (git, the API, the terminal,
    the selected project and environment, configuration) is a field of
    `World`; everything it does to the outside is an event of the returned
    trace. */
module EnvironmentPush {
  import opened Wrappers
  import opened PushTrace

  /** The production branch, guarded and never activated. */
  const Production := "master"

  /** The variable that tells the remote deployment not to make git wait. */
  const NoWaitVariable := "PLATFORMSH_PUSH_NO_WAIT"

  /** The push options copied to git, in the order they are copied. */
  const PushFlags: seq<string> := ["force", "force-with-lease", "set-upstream"]

  const MasterQuestion := "Are you sure you want to push to the <comment>master</comment> (production) branch?"
  const ParentQuestion := "Parent environment"

  function ActivateQuestion(target: string): string
  {
    "Activate <info>" + target + "</info> after pushing?"
  }

  function StatusLine(source: string, existing: bool, target: string): string
  {
    "Pushing <info>" + source + "</info> to the " + (if existing then "existing" else "new") +
    " environment <info>" + target + "</info>"
  }

  /** The command line: the `source` argument and the options `execute` reads. */
  datatype Input = Input(
    source: string,            // positional, `HEAD` when omitted
    target: Option<string>,    // --target
    force: bool,               // --force
    forceWithLease: bool,      // --force-with-lease
    setUpstream: bool,         // --set-upstream
    activate: bool,            // --activate
    parent: Option<string>,    // --parent
    noWait: bool,              // --no-wait, as forwarded to environment:activate
    interactive: bool)         // InputInterface::isInteractive

  /** The environment picked by the selector, if any; `sshUrl` is None when
      asking for it throws EnvironmentStateException. */
  datatype SelectedEnvironment = SelectedEnvironment(id: string, sshUrl: Option<string>)

  /** The remote view of an existing environment. */
  datatype Snapshot = Snapshot(status: string)

  datatype Project = Project(id: string, gitUrl: string, uri: string)

  /** The answers of every collaborator `execute` consults. A field is only
      read on the paths where the command makes that call. */
  datatype World = World(
    projectRoot: Option<string>,           // Selector::getProjectRoot
    project: Project,                      // Selection::getProject
    selected: Option<SelectedEnvironment>, // Selection::hasEnvironment / getEnvironment
    revision: Option<string>,              // output of git rev-parse --verify (None: failure)
    currentBranch: Option<string>,         // Git::getCurrentBranch (None: false)
    confirmsMaster: bool,                  // answer to MasterQuestion
    confirmsActivate: bool,                // answer to ActivateQuestion(target)
    remote: Option<Snapshot>,              // Api::getEnvironment(target)
    environmentIds: seq<string>,           // array_keys(Api::getEnvironments)
    parentAnswer: string,                  // answer to ParentQuestion
    gitRemoteName: string,                 // config detection.git_remote_name
    shouldWait: bool,                      // ActivityMonitor::shouldWait
    pushSucceeds: bool,                    // result of the git push
    activateExit: int)                     // exit code of environment:activate

  /** How `execute` ends: an exit code, or the RootNotFoundException. */
  datatype Outcome = Exit(code: int) | RootNotFound

  /** PHP truthiness of a string-or-null/false value. */
  predicate Truthy(v: Option<string>)
  {
    v.Some? && v.value != "" && v.value != "0"
  }

  /** `$input->getOption($name)` for the three push flags. */
  function OptionSet(input: Input, name: string): bool
  {
    if name == "force" then input.force
    else if name == "force-with-lease" then input.forceWithLease
    else if name == "set-upstream" then input.setUpstream
    else false
  }

  /** The source ref is usable: not empty, no `:`, and rev-parse printed a
      (truthy) revision. */
  predicate ValidSource(input: Input, world: World)
  {
    input.source != "" && ':' !in input.source && Truthy(world.revision)
  }

  /** The target branch by precedence: a truthy --target, else the selected
      environment's id, else a truthy current git branch, else none. */
  function ResolveTarget(input: Input, world: World): Option<string>
  {
    if Truthy(input.target) then input.target
    else if world.selected.Some? then Some(world.selected.value.id)
    else if Truthy(world.currentBranch) then world.currentBranch
    else None
  }

  /** The run gets past validation, target resolution and the production
      guard, so it goes on to push. */
  predicate ReachesPush(input: Input, world: World)
  {
    && world.projectRoot.Some?
    && ValidSource(input, world)
    && ResolveTarget(input, world).Some?
    && (ResolveTarget(input, world).value != Production || world.confirmsMaster)
  }

  /** Activation is considered only off production, for an environment that
      is new or inactive. */
  predicate MayActivate(world: World, target: string)
  {
    target != Production && (world.remote.None? || world.remote.value.status == "inactive")
  }

  predicate Activates(input: Input, world: World, target: string)
  {
    MayActivate(world, target) && (input.activate || (input.interactive && world.confirmsActivate))
  }

  /** The parent of an environment being activated: a truthy --parent, else
      production when it is the only environment, else the operator's answer. */
  function Parent(input: Input, world: World): string
  {
    if Truthy(input.parent) then input.parent.value
    else if world.environmentIds == [Production] then Production
    else world.parentAnswer
  }

  /** Position of a git flag in the fixed order (3 for anything else). */
  function FlagRank(flag: string): nat
  {
    if flag == "--force" then 0
    else if flag == "--force-with-lease" then 1
    else if flag == "--set-upstream" then 2
    else 3
  }

  /** The push flags git receives for the options set, in the fixed order. */
  function FlagArgs(input: Input): seq<string>
  {
    (if input.force then ["--force"] else []) +
    (if input.forceWithLease then ["--force-with-lease"] else []) +
    (if input.setUpstream then ["--set-upstream"] else [])
  }

  /** Each flag is passed iff its option is set, only these three are passed,
      and they keep the order force, force-with-lease, set-upstream. */
  lemma FlagArgsShape(input: Input)
    ensures "--force" in FlagArgs(input) <==> input.force
    ensures "--force-with-lease" in FlagArgs(input) <==> input.forceWithLease
    ensures "--set-upstream" in FlagArgs(input) <==> input.setUpstream
    ensures forall i :: 0 <= i < |FlagArgs(input)| ==> FlagRank(FlagArgs(input)[i]) < 3
    ensures forall i, j :: 0 <= i < j < |FlagArgs(input)| ==>
              FlagRank(FlagArgs(input)[i]) < FlagRank(FlagArgs(input)[j])
  {
    assert FlagRank("--force") == 0 && FlagRank("--force-with-lease") == 1 && FlagRank("--set-upstream") == 2;
    var f := FlagArgs(input);
    forall i | 0 <= i < |f| ensures FlagRank(f[i]) == 0 ==> f[i] == "--force"
      ensures FlagRank(f[i]) == 1 ==> f[i] == "--force-with-lease"
      ensures FlagRank(f[i]) == 2 ==> f[i] == "--set-upstream"
    {
    }
  }

  /** The git push arguments: push to the configured remote, updating the
      target branch from the source ref, followed by the flags. */
  function GitArgs(remoteName: string, source: string, target: string, input: Input): seq<string>
  {
    ["push", remoteName, source + ":refs/heads/" + target] + FlagArgs(input)
  }

  /** The first three arguments name the remote and the refspec; the rest
      are exactly the set flags. */
  lemma GitArgsShape(remoteName: string, source: string, target: string, input: Input)
    ensures var r := GitArgs(remoteName, source, target, input);
            |r| >= 3 && r[..3] == ["push", remoteName, source + ":refs/heads/" + target] && r[3..] == FlagArgs(input)
  {
    var r := GitArgs(remoteName, source, target, input);
    assert r[3..] == FlagArgs(input);
  }

  /** `--<name>` for every name whose option is set, in list order. */
  function SelectedFlags(input: Input, names: seq<string>): seq<string>
    decreases |names|
  {
    if names == [] then []
    else
      var last := names[|names| - 1];
      SelectedFlags(input, names[..|names| - 1]) + (if OptionSet(input, last) then ["--" + last] else [])
  }

  /** The SSH options and the process environment of the push. */
  datatype Transport = Transport(sshOptions: map<string, string>, env: map<string, string>)

  /** What the push needs so that a "do not wait" request reaches the remote. */
  function NoWaitTransport(wait: bool): Transport
  {
    if wait then Transport(map[], map[])
    else Transport(map["SendEnv" := NoWaitVariable], map[NoWaitVariable := "1"])
  }

  /** Waiting needs nothing; otherwise the push sets the no-wait variable to
      1 and the SSH allow-list names exactly the variables the push sets. */
  lemma NoWaitTransportShape(wait: bool)
    ensures var r := NoWaitTransport(wait);
            && (wait <==> r.env == map[])
            && (wait <==> r.sshOptions == map[])
            && (!wait ==> NoWaitVariable in r.env && r.env[NoWaitVariable] == "1")
            && (!wait ==> "SendEnv" in r.sshOptions && r.sshOptions["SendEnv"] == NoWaitVariable)
            && r.sshOptions.Values == r.env.Keys
  {
    var r := NoWaitTransport(wait);
    if !wait {
      assert NoWaitVariable in r.env && "SendEnv" in r.sshOptions;
      assert r.sshOptions.Values == {NoWaitVariable} by {
        assert r.sshOptions["SendEnv"] == NoWaitVariable;
      }
    }
  }

  /** The argument map handed to environment:activate. */
  function ActivateArgs(input: Input, world: World, target: string): seq<(string, ArgValue)>
  {
    [("--project", Str(world.project.uri)),
     ("--environment", Str(target)),
     ("--parent", Str(Parent(input, world))),
     ("--yes", Flag(true)),
     ("--no-wait", Flag(input.noWait))]
  }

  /** Builds the git push arguments, appending the set push flags in order. */
  method BuildGitArgs(input: Input, remoteName: string, source: string, target: string)
    returns (gitArgs: seq<string>)
    ensures gitArgs == ["push", remoteName, source + ":refs/heads/" + target] + FlagArgs(input)
  {
    var base := ["push", remoteName, source + ":refs/heads/" + target];
    gitArgs := base;
    for i := 0 to |PushFlags|
      invariant gitArgs == base + SelectedFlags(input, PushFlags[..i])
    {
      var option := PushFlags[i];
      assert PushFlags[..i + 1][..i] == PushFlags[..i];
      if OptionSet(input, option) {
        gitArgs := gitArgs + ["--" + option];
      }
    }
    SelectedPushFlags(input);
  }

  lemma {:induction false} SelectedPushFlags(input: Input)
    ensures SelectedFlags(input, PushFlags[..|PushFlags|]) == FlagArgs(input)
  {
    var one, two := ["force"], ["force", "force-with-lease"];
    assert PushFlags[..|PushFlags|] == PushFlags && PushFlags[..2] == two && two[..1] == one;
    assert one[..0] == [];
    assert "--" + "force" == "--force";
    assert "--" + "force-with-lease" == "--force-with-lease";
    assert "--" + "set-upstream" == "--set-upstream";
    assert OptionSet(input, "force") == input.force;
    assert OptionSet(input, "force-with-lease") == input.forceWithLease;
    assert OptionSet(input, "set-upstream") == input.setUpstream;
    assert SelectedFlags(input, one) == (if input.force then ["--force"] else []);
    assert SelectedFlags(input, two) == SelectedFlags(input, one) +
      (if input.forceWithLease then ["--force-with-lease"] else []);
  }

  /** The events of source validation: the repository is set, then rev-parse
      runs unless the ref is empty or contains `:`. */
  function ValidationEvents(input: Input, world: World): seq<Event>
    requires world.projectRoot.Some?
  {
    [SetRepositoryDir(world.projectRoot.value)] +
    (if input.source == "" || ':' in input.source then [] else [RevParse(input.source)])
  }

  /** The current branch is read only when neither --target nor a selected
      environment names the target. */
  function TargetEvents(input: Input, world: World): seq<Event>
  {
    if Truthy(input.target) || world.selected.Some? then [] else [GetCurrentBranch]
  }

  function GuardEvents(target: string): seq<Event>
  {
    if target == Production then [Confirm(MasterQuestion)] else []
  }

  /** The activation question, asked only when --activate is absent and the
      session is interactive. */
  function ActivationQuestionEvents(input: Input, world: World, target: string): seq<Event>
  {
    if MayActivate(world, target) && !input.activate && input.interactive
    then [Confirm(ActivateQuestion(target))] else []
  }

  /** The parent lookup and question, when activating without --parent. */
  function ParentEvents(input: Input, world: World, target: string): seq<Event>
  {
    if Activates(input, world, target) && !Truthy(input.parent)
    then [GetEnvironments] +
         (if world.environmentIds == [Production] then []
          else [AskInput(ParentQuestion, Production, world.environmentIds)])
    else []
  }

  function ActivationEvents(input: Input, world: World, target: string): seq<Event>
  {
    ActivationQuestionEvents(input, world, target) + ParentEvents(input, world, target)
  }

  /** Remote set-up, transport set-up and the push itself. */
  function TransferEvents(input: Input, world: World, target: string): seq<Event>
    requires world.projectRoot.Some?
  {
    var transport := NoWaitTransport(world.shouldWait);
    [EnsureRemote(world.projectRoot.value, world.project.gitUrl)] +
    [SetSshCommand(transport.sshOptions)] +
    [Push(GitArgs(world.gitRemoteName, input.source, target, input), transport.env)]
  }

  /** What follows a push: nothing after a failure; otherwise the cache
      clears, then the activation command. */
  function FollowUpEvents(input: Input, world: World, target: string): seq<Event>
  {
    if !world.pushSucceeds then []
    else
      [ClearEnvironmentsCache(world.project.id)] +
      (if world.selected.Some? && world.selected.value.sshUrl.Some?
       then [ClearRelationships(world.selected.value.sshUrl.value)] else []) +
      (if Activates(input, world, target) then [RunActivate(ActivateArgs(input, world, target))] else [])
  }

  /** The events of a run that reaches the push, up to and including it. */
  function PushedTrace(input: Input, world: World, target: string): seq<Event>
    requires world.projectRoot.Some?
  {
    ValidationEvents(input, world) + TargetEvents(input, world) + GuardEvents(target) +
    [GetEnvironment(target)] + [Announce(StatusLine(input.source, world.remote.Some?, target))] +
    ActivationEvents(input, world, target) +
    TransferEvents(input, world, target)
  }

  /** The specification of a run's trace, phase by phase. */
  function ExpectedTrace(input: Input, world: World): seq<Event>
  {
    if world.projectRoot.None? then []
    else if !ValidSource(input, world) then ValidationEvents(input, world)
    else if ResolveTarget(input, world).None? then ValidationEvents(input, world) + TargetEvents(input, world)
    else
      var target := ResolveTarget(input, world).value;
      if !ReachesPush(input, world)
      then ValidationEvents(input, world) + TargetEvents(input, world) + GuardEvents(target)
      else PushedTrace(input, world, target) + FollowUpEvents(input, world, target)
  }

  /** The specification of a run's outcome. */
  function ExpectedOutcome(input: Input, world: World): Outcome
  {
    if world.projectRoot.None? then RootNotFound
    else if !ReachesPush(input, world) || !world.pushSucceeds then Exit(1)
    else if Activates(input, world, ResolveTarget(input, world).value) then Exit(world.activateExit)
    else Exit(0)
  }

  /** Finds the target branch name by precedence (--target, the selected
      environment, the current git branch), reading the git branch only when
      the first two give nothing. */
  method FindTarget(input: Input, world: World) returns (target: Option<string>, events: seq<Event>)
    ensures target == ResolveTarget(input, world)
    ensures events == TargetEvents(input, world)
  {
    events := [];
    if Truthy(input.target) {
      target := input.target;
    } else if world.selected.Some? {
      target := Some(world.selected.value.id);
    } else {
      events := events + [GetCurrentBranch];
      var currentBranch := world.currentBranch;
      if Truthy(currentBranch) {
        target := currentBranch;
      } else {
        target := None;
      }
    }
  }

  /** Decides whether to activate the target after the push and, if so, its
      parent, asking the operator only where the command does. */
  method DecideActivation(input: Input, world: World, target: string)
    returns (activate: bool, parentId: Option<string>, events: seq<Event>)
    ensures activate == Activates(input, world, target)
    ensures activate ==> parentId == Some(Parent(input, world))
    ensures events == ActivationEvents(input, world, target)
  {
    events := [];
    activate := false;
    parentId := None;
    if target != Production {
      // ActivationQuestionEvents: only a new or inactive environment is a candidate.
      if world.remote.None? || world.remote.value.status == "inactive" {
        if input.activate {
          activate := true;
        } else if input.interactive {
          events := events + [Confirm(ActivateQuestion(target))];
          activate := world.confirmsActivate;
        }
      }
      // ParentEvents: --parent, else the lone production branch, else the answer.
      if activate {
        parentId := input.parent;
        if !Truthy(parentId) {
          events := events + [GetEnvironments];
          var autoCompleterValues := world.environmentIds;
          if autoCompleterValues == [Production] {
            parentId := Some(Production);
          } else {
            events := events + [AskInput(ParentQuestion, Production, autoCompleterValues)];
            parentId := Some(world.parentAnswer);
          }
        }
      }
    }
  }

  /** After a successful push: clear the environment list cache and, when an
      environment was selected, its relationships cache (a missing SSH URL is
      ignored); then delegate activation or finish with 0. */
  method FollowUp(input: Input, world: World, target: string, activate: bool, parentId: Option<string>)
    returns (code: int, events: seq<Event>)
    requires world.pushSucceeds
    requires activate == Activates(input, world, target)
    requires activate ==> parentId == Some(Parent(input, world))
    ensures code == if activate then world.activateExit else 0
    ensures events == FollowUpEvents(input, world, target)
  {
    // FollowUpEvents: the environment list cache, then the relationships cache.
    events := [ClearEnvironmentsCache(world.project.id)];
    if world.selected.Some? {
      match world.selected.value.sshUrl
      case Some(sshUrl) =>
        events := events + [ClearRelationships(sshUrl)];
      case None =>
        // No SSH URL (EnvironmentStateException): the relationships cache is skipped.
    }

    if activate {
      var args := [("--project", Str(world.project.uri)),
                   ("--environment", Str(target)),
                   ("--parent", Str(parentId.value)),
                   ("--yes", Flag(true)),
                   ("--no-wait", Flag(input.noWait))];
      events := events + [RunActivate(args)];
      return world.activateExit, events;
    }
    return 0, events;
  }

  /** Sets up the git remote and the SSH transport, then pushes. */
  method Transfer(input: Input, world: World, target: string) returns (events: seq<Event>)
    requires world.projectRoot.Some?
    ensures events == TransferEvents(input, world, target)
  {
    // TransferEvents, first step: the remote.
    events := [EnsureRemote(world.projectRoot.value, world.project.gitUrl)];

    // GitArgs, assembled by a loop.
    var gitArgs := BuildGitArgs(input, world.gitRemoteName, input.source, target);

    // NoWaitTransport: SSH options and environment.
    var extraSshOptions: map<string, string> := map[];
    var env: map<string, string> := map[];
    if !world.shouldWait {
      extraSshOptions := extraSshOptions["SendEnv" := NoWaitVariable];
      env := env[NoWaitVariable := "1"];
    }
    assert extraSshOptions == NoWaitTransport(world.shouldWait).sshOptions;
    assert env == NoWaitTransport(world.shouldWait).env;
    events := events + [SetSshCommand(extraSshOptions)];

    // The push event itself.
    events := events + [Push(gitArgs, env)];
  }

  /** Everything from the remote lookup on, once the target is known and the
      production guard has been passed. */
  method PushToTarget(input: Input, world: World, target: string, checked: seq<Event>)
    returns (code: int, trace: seq<Event>)
    requires ReachesPush(input, world) && ResolveTarget(input, world) == Some(target)
    requires checked == ValidationEvents(input, world) + TargetEvents(input, world) + GuardEvents(target)
    ensures Exit(code) == ExpectedOutcome(input, world)
    ensures trace == ExpectedTrace(input, world)
  {
    var source := input.source;

    // The remote lookup and the status line.
    trace := checked + [GetEnvironment(target)];
    var targetEnvironment := world.remote;
    trace := trace + [Announce(StatusLine(source, targetEnvironment.Some?, target))];

    var activate, parentId, asked := DecideActivation(input, world, target);
    trace := trace + asked;

    var transfer := Transfer(input, world, target);
    trace := trace + transfer;
    assert trace == PushedTrace(input, world, target);
    if !world.pushSucceeds {
      return 1, trace;
    }
    var code', more := FollowUp(input, world, target, activate, parentId);
    trace := trace + more;
    return code', trace;
  }

  /** One run of `EnvironmentPushCommand::execute`. */
  method Execute(input: Input, world: World) returns (outcome: Outcome, trace: seq<Event>)
    ensures outcome == ExpectedOutcome(input, world)
    ensures trace == ExpectedTrace(input, world)
  {
    trace := [];
    if world.projectRoot.None? {
      return RootNotFound, trace;
    }
    var projectRoot := world.projectRoot.value;
    trace := trace + [SetRepositoryDir(projectRoot)];

    // ValidationEvents.
    var source := input.source;
    if source == "" {
      return Exit(1), trace;
    } else if ':' in source {
      return Exit(1), trace;
    }
    trace := trace + [RevParse(source)];
    if !Truthy(world.revision) {
      return Exit(1), trace;
    }

    // TargetEvents, via ResolveTarget.
    var found, lookups := FindTarget(input, world);
    trace := trace + lookups;
    if found.None? {
      assert trace == ValidationEvents(input, world) + TargetEvents(input, world);
      return Exit(1), trace;
    }
    var target := found.value;
    ghost var resolved := trace;
    assert resolved == ValidationEvents(input, world) + TargetEvents(input, world);

    // GuardEvents.
    if target == Production {
      trace := trace + [Confirm(MasterQuestion)];
      if !world.confirmsMaster {
        return Exit(1), trace;
      }
    }

    assert trace == resolved + GuardEvents(target);
    assert ReachesPush(input, world);
    var code;
    code, trace := PushToTarget(input, world, target, trace);
    return Exit(code), trace;
  }
}
