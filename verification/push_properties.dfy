/** What a run of `environment:push` promises, stated over the specification
    of its trace and outcome (which `EnvironmentPush.Execute` is proved to
    produce). */
module PushProperties {
  import opened Wrappers
  import opened PushTrace
  import opened EnvironmentPush
  import opened PushPhases

  /** An empty source ref, or one containing `:`, fails with 1 before git is
      even asked about it. */
  lemma MalformedSourceFailsFirst(input: Input, world: World)
    requires world.projectRoot.Some?
    requires input.source == "" || ':' in input.source
    ensures ExpectedOutcome(input, world) == Exit(1)
    ensures ExpectedTrace(input, world) == [SetRepositoryDir(world.projectRoot.value)]
  {
    assert ExpectedTrace(input, world) == ValidationEvents(input, world);
  }

  /** Every early failure (bad source, no target, production push declined)
      exits with 1 and makes no API call, no remote set-up and no push. */
  lemma EarlyFailuresHaveNoEffects(input: Input, world: World)
    requires world.projectRoot.Some?
    requires || !ValidSource(input, world)
             || ResolveTarget(input, world).None?
             || (ResolveTarget(input, world) == Some(Production) && !world.confirmsMaster)
    ensures !ReachesPush(input, world)
    ensures ExpectedOutcome(input, world) == Exit(1)
    ensures NoEffects(ExpectedTrace(input, world))
  {
    var t := ExpectedTrace(input, world);
    var early := ValidationEvents(input, world) + TargetEvents(input, world);
    if !ValidSource(input, world) {
      assert t == ValidationEvents(input, world);
    } else if ResolveTarget(input, world).None? {
      assert t == early;
    } else {
      assert t == early + GuardEvents(Production);
    }
  }

  /** A run that stops early holds no event of an effect kind. */
  lemma EarlyTraceLacks(input: Input, world: World, k: Kind)
    requires world.projectRoot.Some? && !ReachesPush(input, world)
    requires k in {KGetEnvironment, KGetEnvironments, KAskInput, KPush, KClearEnvironmentsCache, KClearRelationships, KRunActivate}
    ensures Count(ExpectedTrace(input, world), k) == 0
  {
    var t := ExpectedTrace(input, world);
    var validation := ValidationEvents(input, world);
    ValidationCount(input, world, k);
    if !ValidSource(input, world) {
      assert t == validation;
    } else {
      var target := TargetEvents(input, world);
      TargetCount(input, world, k);
      CountConcat(validation, target, k);
      if ResolveTarget(input, world).None? {
        assert t == validation + target;
      } else {
        var guard := GuardEvents(ResolveTarget(input, world).value);
        GuardCount(ResolveTarget(input, world).value, k);
        CountConcat(validation + target, guard, k);
      }
    }
  }

  /** The count of each kind over a run that reaches the push: what comes
      before it, the push itself, and what follows it. */
  lemma ReachedCount(input: Input, world: World, target: string, k: Kind)
    requires ReachesPush(input, world) && ResolveTarget(input, world) == Some(target)
    ensures Count(ExpectedTrace(input, world), k) ==
            BeforeCount(input, world, target, k) + (if k == KPush then 1 else 0) + AfterCount(input, world, target, k)
  {
    var before, after := CutAtPush(input, world, target);
    CountAround(before, PushEvent(input, world, target), after, k);
  }

  /** There is exactly one push when the run gets past validation, target
      resolution and the production guard, and none otherwise. */
  lemma PushExactlyWhenReached(input: Input, world: World)
    ensures Count(ExpectedTrace(input, world), KPush) == (if ReachesPush(input, world) then 1 else 0)
  {
    if world.projectRoot.None? {
      assert ExpectedTrace(input, world) == [];
    } else if !ReachesPush(input, world) {
      EarlyTraceLacks(input, world, KPush);
    } else {
      ReachedCount(input, world, ResolveTarget(input, world).value, KPush);
    }
  }

  /** A push only happens for a valid source ref and a resolved target. */
  lemma PushNeedsValidation(input: Input, world: World)
    requires Count(ExpectedTrace(input, world), KPush) > 0
    ensures ValidSource(input, world) && ResolveTarget(input, world).Some?
  {
    PushExactlyWhenReached(input, world);
  }

  /** The source is checked with rev-parse before the remote lookup, and both
      come before the push. */
  lemma ReachedPushOrder(input: Input, world: World, target: string)
    requires ReachesPush(input, world) && ResolveTarget(input, world) == Some(target)
    ensures Precedes(ExpectedTrace(input, world), KRevParse, KGetEnvironment)
    ensures Precedes(ExpectedTrace(input, world), KGetEnvironment, KPush)
  {
    var before, after := CutOrdered(input, world, target);
    var push := PushEvent(input, world, target);
    CountSingle(push, KRevParse);
    CountSingle(push, KGetEnvironment);
    PrecedesExtend(before, [push], KRevParse, KGetEnvironment);
    PrecedesExtend(before + [push], after, KRevParse, KGetEnvironment);
    CountSingle(push, KPush);
    PrecedesSplit(before, [push], KGetEnvironment, KPush);
    PrecedesExtend(before + [push], after, KGetEnvironment, KPush);
  }

  lemma ReachedRevParseFirst(input: Input, world: World, target: string)
    requires ReachesPush(input, world) && ResolveTarget(input, world) == Some(target)
    ensures Precedes(ExpectedTrace(input, world), KRevParse, KPush)
  {
    var before, after := CutOrdered(input, world, target);
    var push := PushEvent(input, world, target);
    CountSingle(push, KPush);
    PrecedesSplit(before, [push], KRevParse, KPush);
    PrecedesExtend(before + [push], after, KRevParse, KPush);
  }

  /** Whatever happens, rev-parse comes before the remote lookup and before
      the push, and the remote lookup comes before the push. */
  lemma PushOnlyAfterValidation(input: Input, world: World)
    ensures Precedes(ExpectedTrace(input, world), KRevParse, KPush)
    ensures Precedes(ExpectedTrace(input, world), KRevParse, KGetEnvironment)
    ensures Precedes(ExpectedTrace(input, world), KGetEnvironment, KPush)
  {
    var t := ExpectedTrace(input, world);
    if world.projectRoot.None? {
      assert t == [];
    } else if !ReachesPush(input, world) {
      EarlyTraceLacks(input, world, KPush);
      EarlyTraceLacks(input, world, KGetEnvironment);
      assert t + [] == t;
      PrecedesSplit(t, [], KRevParse, KPush);
      PrecedesSplit(t, [], KRevParse, KGetEnvironment);
      PrecedesSplit(t, [], KGetEnvironment, KPush);
    } else {
      var target := ResolveTarget(input, world).value;
      ReachedPushOrder(input, world, target);
      ReachedRevParseFirst(input, world, target);
    }
  }

  /** The pushed refspec names the target chosen by precedence: a truthy
      --target, else the selected environment, else the current git branch. */
  lemma PushedRefspecNamesTarget(input: Input, world: World)
    requires ReachesPush(input, world)
    ensures var target := if Truthy(input.target) then input.target.value
                          else if world.selected.Some? then world.selected.value.id
                          else world.currentBranch.value;
            exists env :: Push(GitArgs(world.gitRemoteName, input.source, target, input), env) in ExpectedTrace(input, world)
  {
    var target := ResolveTarget(input, world).value;
    var before, after := CutAtPush(input, world, target);
    assert ExpectedTrace(input, world)[|before|] == PushEvent(input, world, target);
  }

  /** The current git branch is read, once, only when neither --target nor a
      selected environment names the target. */
  lemma CurrentBranchReadOnlyAsFallback(input: Input, world: World)
    requires ReachesPush(input, world)
    ensures Count(ExpectedTrace(input, world), KGetCurrentBranch) ==
            (if Truthy(input.target) || world.selected.Some? then 0 else 1)
  {
    ReachedCount(input, world, ResolveTarget(input, world).value, KGetCurrentBranch);
  }

  /** A push to production needs the operator's confirmation: declining it
      ends the run with 1 and no effect. */
  lemma ProductionDeclined(input: Input, world: World)
    requires world.projectRoot.Some? && ValidSource(input, world)
    requires ResolveTarget(input, world) == Some(Production) && !world.confirmsMaster
    ensures ExpectedOutcome(input, world) == Exit(1)
    ensures ExpectedTrace(input, world)[|ExpectedTrace(input, world)| - 1] == Confirm(MasterQuestion)
  {
    var early := ValidationEvents(input, world) + TargetEvents(input, world);
    assert ExpectedTrace(input, world) == early + [Confirm(MasterQuestion)];
  }

  /** A confirmed push to production asks exactly one question, the
      production one. */
  lemma ProductionConfirmedOnce(input: Input, world: World)
    requires ReachesPush(input, world) && ResolveTarget(input, world) == Some(Production)
    ensures Count(ExpectedTrace(input, world), KConfirm) == 1
    ensures Confirm(MasterQuestion) in ExpectedTrace(input, world)
  {
    var before, after := CutWithMembers(input, world, Production);
    CountAround(before, PushEvent(input, world, Production), after, KConfirm);
  }

  /** The production question comes before the remote lookup and the push. */
  lemma ProductionConfirmedFirst(input: Input, world: World)
    requires ReachesPush(input, world) && ResolveTarget(input, world) == Some(Production)
    ensures Precedes(ExpectedTrace(input, world), KConfirm, KGetEnvironment)
    ensures Precedes(ExpectedTrace(input, world), KConfirm, KPush)
  {
    var before, after := CutOrdered(input, world, Production);
    var push := PushEvent(input, world, Production);
    CountSingle(push, KConfirm);
    CountSingle(push, KPush);
    PrecedesExtend(before, [push], KConfirm, KGetEnvironment);
    PrecedesExtend(before + [push], after, KConfirm, KGetEnvironment);
    PrecedesSplit(before, [push], KConfirm, KPush);
    PrecedesExtend(before + [push], after, KConfirm, KPush);
  }

  /** Production is never activated, and no parent is asked for. */
  lemma ProductionNotActivated(input: Input, world: World)
    requires ReachesPush(input, world) && ResolveTarget(input, world) == Some(Production)
    ensures Count(ExpectedTrace(input, world), KRunActivate) == 0
  {
    ReachedCount(input, world, Production, KRunActivate);
  }

  lemma ProductionAsksNoParent(input: Input, world: World)
    requires ReachesPush(input, world) && ResolveTarget(input, world) == Some(Production)
    ensures Count(ExpectedTrace(input, world), KAskInput) == 0
  {
    ReachedCount(input, world, Production, KAskInput);
  }

  /** A confirmed push to production exits with 0 when git succeeds and
      with 1 when it fails. */
  lemma ProductionOutcome(input: Input, world: World)
    requires ReachesPush(input, world) && ResolveTarget(input, world) == Some(Production)
    ensures ExpectedOutcome(input, world) == if world.pushSucceeds then Exit(0) else Exit(1)
  {
    assert !MayActivate(world, Production);
  }

  /** The environment is activated, once, exactly when the push succeeds and
      activation was requested or confirmed for a new or inactive
      non-production environment. */
  lemma ActivationExactlyWhen(input: Input, world: World, target: string)
    requires ReachesPush(input, world) && ResolveTarget(input, world) == Some(target)
    ensures Count(ExpectedTrace(input, world), KRunActivate) ==
            if world.pushSucceeds && Activates(input, world, target) then 1 else 0
  {
    ReachedCount(input, world, target, KRunActivate);
  }

  /** The activation question is asked exactly when activation is possible,
      --activate is absent and the session is interactive. */
  lemma ActivationQuestionAsked(input: Input, world: World, target: string)
    requires ReachesPush(input, world) && ResolveTarget(input, world) == Some(target)
    ensures Confirm(ActivateQuestion(target)) in ExpectedTrace(input, world) <==>
            MayActivate(world, target) && !input.activate && input.interactive
  {
    var before, after := CutWithMembers(input, world, target);
    CountZero(after, KConfirm);
  }

  /** When it activates, the activation is the run's last step, it gets the
      project, the target, the parent, --yes and the --no-wait choice, and
      its exit code is the command's. */
  lemma ActivationIsLast(input: Input, world: World, target: string)
    requires ReachesPush(input, world) && ResolveTarget(input, world) == Some(target)
    requires world.pushSucceeds && Activates(input, world, target)
    ensures var t := ExpectedTrace(input, world);
            |t| > 0 && t[|t| - 1] == RunActivate(ActivateArgs(input, world, target))
    ensures ExpectedOutcome(input, world) == Exit(world.activateExit)
  {
    var before, after := CutWithMembers(input, world, target);
  }

  /** The arguments handed to environment:activate. */
  lemma ActivateArgsNamed(input: Input, world: World, target: string)
    ensures var args := ActivateArgs(input, world, target);
            && |args| == 5
            && args[1] == ("--environment", Str(target))
            && args[2] == ("--parent", Str(Parent(input, world)))
            && args[3] == ("--yes", Flag(true))
            && args[4] == ("--no-wait", Flag(input.noWait))
  {
  }

  /** The parent is a truthy --parent when given; otherwise the environment
      list is fetched once and the parent is production when it is the only
      environment, or else the operator's answer to a question that
      suggests production and offers every environment. */
  lemma ParentLookup(input: Input, world: World, target: string)
    requires ReachesPush(input, world) && ResolveTarget(input, world) == Some(target)
    ensures Count(ExpectedTrace(input, world), KGetEnvironments) ==
            if Activates(input, world, target) && !Truthy(input.parent) then 1 else 0
    ensures Count(ExpectedTrace(input, world), KAskInput) ==
            if Activates(input, world, target) && !Truthy(input.parent) && world.environmentIds != [Production] then 1 else 0
  {
    ReachedCount(input, world, target, KGetEnvironments);
    ReachedCount(input, world, target, KAskInput);
  }

  lemma ParentQuestionAsked(input: Input, world: World, target: string)
    requires ReachesPush(input, world) && ResolveTarget(input, world) == Some(target)
    requires Activates(input, world, target) && !Truthy(input.parent) && world.environmentIds != [Production]
    ensures AskInput(ParentQuestion, Production, world.environmentIds) in ExpectedTrace(input, world)
    ensures Parent(input, world) == world.parentAnswer
  {
    var before, after := CutWithMembers(input, world, target);
  }

  /** The push goes to the configured remote with the refspec
      `<source>:refs/heads/<target>` followed by exactly the set flags, and
      it carries the no-wait variable exactly when the run should not wait. */
  lemma PushArguments(input: Input, world: World, target: string)
    requires ReachesPush(input, world) && ResolveTarget(input, world) == Some(target)
    ensures var push := PushEvent(input, world, target);
            && push in ExpectedTrace(input, world)
            && push.args[..3] == ["push", world.gitRemoteName, input.source + ":refs/heads/" + target]
            && push.args[3..] == FlagArgs(input)
            && (world.shouldWait <==> push.env == map[])
            && (!world.shouldWait ==> NoWaitVariable in push.env && push.env[NoWaitVariable] == "1")
  {
    var before, after := CutAtPush(input, world, target);
    assert ExpectedTrace(input, world)[|before|] == PushEvent(input, world, target);
    GitArgsShape(world.gitRemoteName, input.source, target, input);
    NoWaitTransportShape(world.shouldWait);
  }

  /** The git remote and the SSH command are each set up once, before the
      push; the SSH command forwards the no-wait variable exactly when the
      push sets it. */
  lemma TransportSetUp(input: Input, world: World, target: string)
    requires ReachesPush(input, world) && ResolveTarget(input, world) == Some(target)
    ensures Count(ExpectedTrace(input, world), KEnsureRemote) == 1
    ensures Count(ExpectedTrace(input, world), KSetSshCommand) == 1
  {
    ReachedCount(input, world, target, KEnsureRemote);
    ReachedCount(input, world, target, KSetSshCommand);
  }

  lemma TransportBeforePush(input: Input, world: World, target: string)
    requires ReachesPush(input, world) && ResolveTarget(input, world) == Some(target)
    ensures Precedes(ExpectedTrace(input, world), KEnsureRemote, KPush)
    ensures Precedes(ExpectedTrace(input, world), KSetSshCommand, KPush)
  {
    var before, after := CutAtPush(input, world, target);
    var push := PushEvent(input, world, target);
    CountSingle(push, KPush);
    CountSingle(push, KEnsureRemote);
    CountSingle(push, KSetSshCommand);
    PrecedesSplit(before, [push], KEnsureRemote, KPush);
    PrecedesExtend(before + [push], after, KEnsureRemote, KPush);
    PrecedesSplit(before, [push], KSetSshCommand, KPush);
    PrecedesExtend(before + [push], after, KSetSshCommand, KPush);
  }

  lemma TransportForwardsNoWait(input: Input, world: World, target: string)
    requires ReachesPush(input, world) && ResolveTarget(input, world) == Some(target)
    ensures var transport := NoWaitTransport(world.shouldWait);
            && SetSshCommand(transport.sshOptions) in ExpectedTrace(input, world)
            && transport.sshOptions.Values == PushEvent(input, world, target).env.Keys
  {
    var before, after := CutWithMembers(input, world, target);
    NoWaitTransportShape(world.shouldWait);
  }

  /** A failed push ends the run with 1: the push is the last step, and no
      cache is cleared and nothing is activated. */
  lemma FailedPushStops(input: Input, world: World, target: string)
    requires ReachesPush(input, world) && ResolveTarget(input, world) == Some(target)
    requires !world.pushSucceeds
    ensures ExpectedOutcome(input, world) == Exit(1)
    ensures var t := ExpectedTrace(input, world);
            |t| > 0 && t[|t| - 1] == PushEvent(input, world, target)
  {
    var before, after := CutWithMembers(input, world, target);
  }

  lemma FailedPushClearsNothing(input: Input, world: World, target: string)
    requires ReachesPush(input, world) && ResolveTarget(input, world) == Some(target)
    requires !world.pushSucceeds
    ensures Count(ExpectedTrace(input, world), KClearEnvironmentsCache) == 0
    ensures Count(ExpectedTrace(input, world), KClearRelationships) == 0
  {
    ReachedCount(input, world, target, KClearEnvironmentsCache);
    ReachedCount(input, world, target, KClearRelationships);
  }

  /** A successful push clears the project's environment cache once and,
      when the selected environment has an SSH URL, its relationships cache
      once. */
  lemma SuccessfulPushClearsCaches(input: Input, world: World, target: string)
    requires ReachesPush(input, world) && ResolveTarget(input, world) == Some(target)
    requires world.pushSucceeds
    ensures Count(ExpectedTrace(input, world), KClearEnvironmentsCache) == 1
    ensures Count(ExpectedTrace(input, world), KClearRelationships) ==
            if world.selected.Some? && world.selected.value.sshUrl.Some? then 1 else 0
  {
    ReachedCount(input, world, target, KClearEnvironmentsCache);
    ReachedCount(input, world, target, KClearRelationships);
  }

  lemma SuccessfulPushClearsProjectCache(input: Input, world: World, target: string)
    requires ReachesPush(input, world) && ResolveTarget(input, world) == Some(target)
    requires world.pushSucceeds
    ensures ClearEnvironmentsCache(world.project.id) in ExpectedTrace(input, world)
    ensures !Activates(input, world, target) ==> ExpectedOutcome(input, world) == Exit(0)
  {
    var before, after := CutWithMembers(input, world, target);
  }

  /** The caches are cleared after the push, and before the activation. */
  lemma CachesClearedAfterPush(input: Input, world: World, target: string)
    requires ReachesPush(input, world) && ResolveTarget(input, world) == Some(target)
    ensures Precedes(ExpectedTrace(input, world), KPush, KClearEnvironmentsCache)
    ensures Precedes(ExpectedTrace(input, world), KPush, KClearRelationships)
  {
    var before, after := CutAtPush(input, world, target);
    var push := PushEvent(input, world, target);
    CountSingle(push, KClearEnvironmentsCache);
    CountSingle(push, KClearRelationships);
    CountConcat(before, [push], KClearEnvironmentsCache);
    CountConcat(before, [push], KClearRelationships);
    PrecedesSplit(before + [push], after, KPush, KClearEnvironmentsCache);
    PrecedesSplit(before + [push], after, KPush, KClearRelationships);
  }

  lemma CacheClearedBeforeActivation(input: Input, world: World, target: string)
    requires ReachesPush(input, world) && ResolveTarget(input, world) == Some(target)
    ensures Precedes(ExpectedTrace(input, world), KClearEnvironmentsCache, KRunActivate)
  {
    var before, after := CutOrdered(input, world, target);
    var push := PushEvent(input, world, target);
    CountSingle(push, KRunActivate);
    CountConcat(before, [push], KRunActivate);
    PrecedesPrepend(before + [push], after, KClearEnvironmentsCache, KRunActivate);
  }
}
