/** The trace of `environment:push` phase by phase: how often each kind of
    event occurs in each phase, and a run that reaches the push cut at the
    push into what comes before it and what follows it. The properties in
    `PushProperties` are proved from these facts. */
module PushPhases {
  import opened Wrappers
  import opened PushTrace
  import opened EnvironmentPush

  /** The push of a run that reaches it. */
  function PushEvent(input: Input, world: World, target: string): Event
  {
    Push(GitArgs(world.gitRemoteName, input.source, target, input), NoWaitTransport(world.shouldWait).env)
  }

  /** Validation, target resolution and the production guard. */
  function Checks(input: Input, world: World, target: string): seq<Event>
    requires world.projectRoot.Some?
  {
    ValidationEvents(input, world) + TargetEvents(input, world) + GuardEvents(target)
  }

  /** Everything a run that reaches the push does before it. */
  function BeforePush(input: Input, world: World, target: string): seq<Event>
    requires world.projectRoot.Some?
  {
    Checks(input, world, target) + [GetEnvironment(target)] +
    [Announce(StatusLine(input.source, world.remote.Some?, target))] +
    ActivationEvents(input, world, target) +
    [EnsureRemote(world.projectRoot.value, world.project.gitUrl)] +
    [SetSshCommand(NoWaitTransport(world.shouldWait).sshOptions)]
  }

  predicate AsksActivation(input: Input, world: World, target: string)
  {
    MayActivate(world, target) && !input.activate && input.interactive
  }

  predicate LooksUpParent(input: Input, world: World, target: string)
  {
    Activates(input, world, target) && !Truthy(input.parent)
  }

  predicate AsksParent(input: Input, world: World, target: string)
  {
    LooksUpParent(input, world, target) && world.environmentIds != [Production]
  }

  predicate HasSshUrl(world: World)
  {
    world.selected.Some? && world.selected.value.sshUrl.Some?
  }

  /** How often an event of kind `k` occurs before the push. */
  function BeforeCount(input: Input, world: World, target: string, k: Kind): nat
  {
    (if k == KSetRepositoryDir || k == KGetEnvironment || k == KAnnounce ||
        k == KEnsureRemote || k == KSetSshCommand then 1 else 0) +
    (if k == KRevParse && !(input.source == "" || ':' in input.source) then 1 else 0) +
    (if k == KGetCurrentBranch && !(Truthy(input.target) || world.selected.Some?) then 1 else 0) +
    (if k == KConfirm && target == Production then 1 else 0) +
    (if k == KConfirm && AsksActivation(input, world, target) then 1 else 0) +
    (if k == KGetEnvironments && LooksUpParent(input, world, target) then 1 else 0) +
    (if k == KAskInput && AsksParent(input, world, target) then 1 else 0)
  }

  /** How often an event of kind `k` occurs after the push. */
  function AfterCount(input: Input, world: World, target: string, k: Kind): nat
  {
    if !world.pushSucceeds then 0
    else (if k == KClearEnvironmentsCache then 1 else 0) +
         (if k == KClearRelationships && HasSshUrl(world) then 1 else 0) +
         (if k == KRunActivate && Activates(input, world, target) then 1 else 0)
  }

  lemma ValidationCount(input: Input, world: World, k: Kind)
    requires world.projectRoot.Some?
    ensures Count(ValidationEvents(input, world), k) ==
            (if k == KSetRepositoryDir then 1 else 0) +
            (if k == KRevParse && !(input.source == "" || ':' in input.source) then 1 else 0)
  {
    var first := [SetRepositoryDir(world.projectRoot.value)];
    CountSingle(SetRepositoryDir(world.projectRoot.value), k);
    if input.source == "" || ':' in input.source {
      assert ValidationEvents(input, world) == first + [];
    } else {
      CountConcat(first, [RevParse(input.source)], k);
      CountSingle(RevParse(input.source), k);
    }
  }

  lemma TargetCount(input: Input, world: World, k: Kind)
    ensures Count(TargetEvents(input, world), k) ==
            if k == KGetCurrentBranch && !(Truthy(input.target) || world.selected.Some?) then 1 else 0
  {
    CountSingle(GetCurrentBranch, k);
  }

  lemma GuardCount(target: string, k: Kind)
    ensures Count(GuardEvents(target), k) == if k == KConfirm && target == Production then 1 else 0
  {
    CountSingle(Confirm(MasterQuestion), k);
  }

  lemma ActivationCount(input: Input, world: World, target: string, k: Kind)
    ensures Count(ActivationEvents(input, world, target), k) ==
            (if k == KConfirm && AsksActivation(input, world, target) then 1 else 0) +
            (if k == KGetEnvironments && LooksUpParent(input, world, target) then 1 else 0) +
            (if k == KAskInput && AsksParent(input, world, target) then 1 else 0)
  {
    CountConcat(ActivationQuestionEvents(input, world, target), ParentEvents(input, world, target), k);
    CountSingle(Confirm(ActivateQuestion(target)), k);
    if LooksUpParent(input, world, target) {
      CountSingle(GetEnvironments, k);
      if world.environmentIds != [Production] {
        var ask := AskInput(ParentQuestion, Production, world.environmentIds);
        CountConcat([GetEnvironments], [ask], k);
        CountSingle(ask, k);
      } else {
        assert ParentEvents(input, world, target) == [GetEnvironments] + [];
      }
    }
  }

  lemma ChecksCount(input: Input, world: World, target: string, k: Kind)
    requires world.projectRoot.Some?
    ensures Count(Checks(input, world, target), k) ==
            Count(ValidationEvents(input, world), k) + Count(TargetEvents(input, world), k) + Count(GuardEvents(target), k)
  {
    var validation := ValidationEvents(input, world);
    CountConcat(validation, TargetEvents(input, world), k);
    CountConcat(validation + TargetEvents(input, world), GuardEvents(target), k);
  }

  /** The count of a kind before the push, phase by phase. */
  lemma BeforePushSum(input: Input, world: World, target: string, k: Kind)
    requires world.projectRoot.Some?
    ensures Count(BeforePush(input, world, target), k) ==
            Count(Checks(input, world, target), k) + Count(ActivationEvents(input, world, target), k) +
            (if k == KGetEnvironment || k == KAnnounce || k == KEnsureRemote || k == KSetSshCommand then 1 else 0)
  {
    var checks := Checks(input, world, target);
    var lookup := GetEnvironment(target);
    var announce := Announce(StatusLine(input.source, world.remote.Some?, target));
    var activation := ActivationEvents(input, world, target);
    var remote := EnsureRemote(world.projectRoot.value, world.project.gitUrl);
    var ssh := SetSshCommand(NoWaitTransport(world.shouldWait).sshOptions);
    CountConcat(checks, [lookup], k);
    CountConcat(checks + [lookup], [announce], k);
    CountConcat(checks + [lookup] + [announce], activation, k);
    CountConcat(checks + [lookup] + [announce] + activation, [remote], k);
    CountConcat(checks + [lookup] + [announce] + activation + [remote], [ssh], k);
    CountSingle(lookup, k);
    CountSingle(announce, k);
    CountSingle(remote, k);
    CountSingle(ssh, k);
  }

  lemma BeforePushCount(input: Input, world: World, target: string, k: Kind)
    requires world.projectRoot.Some?
    ensures Count(BeforePush(input, world, target), k) == BeforeCount(input, world, target, k)
  {
    BeforePushSum(input, world, target, k);
    ChecksCount(input, world, target, k);
    ValidationCount(input, world, k);
    TargetCount(input, world, k);
    GuardCount(target, k);
    ActivationCount(input, world, target, k);
  }

  lemma FollowUpCount(input: Input, world: World, target: string, k: Kind)
    ensures Count(FollowUpEvents(input, world, target), k) == AfterCount(input, world, target, k)
  {
    if world.pushSucceeds {
      var clear := [ClearEnvironmentsCache(world.project.id)];
      var relationships := if HasSshUrl(world) then [ClearRelationships(world.selected.value.sshUrl.value)] else [];
      var activate := if Activates(input, world, target) then [RunActivate(ActivateArgs(input, world, target))] else [];
      assert FollowUpEvents(input, world, target) == clear + relationships + activate;
      CountConcat(clear + relationships, activate, k);
      CountConcat(clear, relationships, k);
      FollowUpPartsCount(input, world, target, k);
    }
  }

  lemma FollowUpPartsCount(input: Input, world: World, target: string, k: Kind)
    ensures Count([ClearEnvironmentsCache(world.project.id)], k) == if k == KClearEnvironmentsCache then 1 else 0
    ensures Count(if HasSshUrl(world) then [ClearRelationships(world.selected.value.sshUrl.value)] else [], k) ==
            if k == KClearRelationships && HasSshUrl(world) then 1 else 0
    ensures Count(if Activates(input, world, target) then [RunActivate(ActivateArgs(input, world, target))] else [], k) ==
            if k == KRunActivate && Activates(input, world, target) then 1 else 0
  {
    CountSingle(ClearEnvironmentsCache(world.project.id), k);
    if HasSshUrl(world) {
      CountSingle(ClearRelationships(world.selected.value.sshUrl.value), k);
    }
    if Activates(input, world, target) {
      CountSingle(RunActivate(ActivateArgs(input, world, target)), k);
    }
  }

  /** Before the push, `earlier` events all come before the remote lookup,
      provided the checks hold all of them and nothing after the checks is
      one. */
  lemma ChecksBeforeLookup(input: Input, world: World, target: string, earlier: Kind)
    requires world.projectRoot.Some?
    requires earlier == KRevParse || (earlier == KConfirm && target == Production)
    ensures Precedes(BeforePush(input, world, target), earlier, KGetEnvironment)
  {
    var checks := Checks(input, world, target);
    var lookup := [GetEnvironment(target)];
    var announce := [Announce(StatusLine(input.source, world.remote.Some?, target))];
    var activation := ActivationEvents(input, world, target);
    var remote := [EnsureRemote(world.projectRoot.value, world.project.gitUrl)];
    var ssh := [SetSshCommand(NoWaitTransport(world.shouldWait).sshOptions)];
    ChecksCount(input, world, target, KGetEnvironment);
    ValidationCount(input, world, KGetEnvironment);
    TargetCount(input, world, KGetEnvironment);
    GuardCount(target, KGetEnvironment);
    CountSingle(GetEnvironment(target), earlier);
    CountSingle(Announce(StatusLine(input.source, world.remote.Some?, target)), earlier);
    ActivationCount(input, world, target, earlier);
    CountSingle(EnsureRemote(world.projectRoot.value, world.project.gitUrl), earlier);
    CountSingle(SetSshCommand(NoWaitTransport(world.shouldWait).sshOptions), earlier);
    PrecedesSplit(checks, lookup, earlier, KGetEnvironment);
    PrecedesExtend(checks + lookup, announce, earlier, KGetEnvironment);
    PrecedesExtend(checks + lookup + announce, activation, earlier, KGetEnvironment);
    PrecedesExtend(checks + lookup + announce + activation, remote, earlier, KGetEnvironment);
    PrecedesExtend(checks + lookup + announce + activation + remote, ssh, earlier, KGetEnvironment);
  }

  /** The remote and the transport are set up before the push. */
  lemma BeforePushTransport(input: Input, world: World, target: string)
    requires world.projectRoot.Some?
    ensures var before := BeforePush(input, world, target);
            && EnsureRemote(world.projectRoot.value, world.project.gitUrl) in before
            && SetSshCommand(NoWaitTransport(world.shouldWait).sshOptions) in before
  {
    var before := BeforePush(input, world, target);
    assert before[|before| - 1] == SetSshCommand(NoWaitTransport(world.shouldWait).sshOptions);
    assert before[|before| - 2] == EnsureRemote(world.projectRoot.value, world.project.gitUrl);
  }

  /** The questions asked before the push. */
  lemma BeforePushQuestions(input: Input, world: World, target: string)
    requires world.projectRoot.Some?
    ensures var before := BeforePush(input, world, target);
            && (AsksParent(input, world, target) ==> AskInput(ParentQuestion, Production, world.environmentIds) in before)
            && (target == Production ==> Confirm(MasterQuestion) in before)
  {
  }

  /** The production guard's question is not the activation question for
      production, so the one is never taken for the other. */
  lemma ProductionQuestionsDiffer()
    ensures ActivateQuestion(Production) != MasterQuestion
  {
    assert |ActivateQuestion(Production)| < |MasterQuestion|;
  }

  /** The activation question is asked before the push exactly when the
      command asks it. */
  lemma BeforePushActivationQuestion(input: Input, world: World, target: string)
    requires world.projectRoot.Some?
    ensures Confirm(ActivateQuestion(target)) in BeforePush(input, world, target) <==> AsksActivation(input, world, target)
  {
    ProductionQuestionsDiffer();
  }

  /** What follows the push: nothing after a failure, otherwise the cache
      clears and then, last, the activation. */
  lemma FollowUpShape(input: Input, world: World, target: string)
    ensures var after := FollowUpEvents(input, world, target);
            && (!world.pushSucceeds ==> after == [])
            && (world.pushSucceeds ==> ClearEnvironmentsCache(world.project.id) in after)
            && (world.pushSucceeds && Activates(input, world, target) ==>
                  |after| > 0 && after[|after| - 1] == RunActivate(ActivateArgs(input, world, target)))
  {
  }

  /** The cache is cleared before the activation runs. */
  lemma FollowUpOrder(input: Input, world: World, target: string)
    ensures Precedes(FollowUpEvents(input, world, target), KClearEnvironmentsCache, KRunActivate)
  {
    if world.pushSucceeds {
      var clear := [ClearEnvironmentsCache(world.project.id)];
      var relationships := if HasSshUrl(world) then [ClearRelationships(world.selected.value.sshUrl.value)] else [];
      var activate := if Activates(input, world, target) then [RunActivate(ActivateArgs(input, world, target))] else [];
      assert FollowUpEvents(input, world, target) == clear + relationships + activate;
      CountConcat(clear, relationships, KRunActivate);
      FollowUpPartsCount(input, world, target, KRunActivate);
      FollowUpPartsCount(input, world, target, KClearEnvironmentsCache);
      PrecedesSplit(clear + relationships, activate, KClearEnvironmentsCache, KRunActivate);
    }
  }

  /** A run that reaches the push, cut at the push. */
  lemma SplitAtPush(input: Input, world: World, target: string)
    requires ReachesPush(input, world) && ResolveTarget(input, world) == Some(target)
    ensures ExpectedTrace(input, world) ==
            BeforePush(input, world, target) + [PushEvent(input, world, target)] + FollowUpEvents(input, world, target)
  {
  }

  /** The counts of both sides of the push, for every kind at once. */
  lemma PhaseCounts(input: Input, world: World, target: string)
    requires world.projectRoot.Some?
    ensures forall k :: Count(BeforePush(input, world, target), k) == BeforeCount(input, world, target, k)
    ensures forall k :: Count(FollowUpEvents(input, world, target), k) == AfterCount(input, world, target, k)
  {
    forall k ensures Count(BeforePush(input, world, target), k) == BeforeCount(input, world, target, k) {
      BeforePushCount(input, world, target, k);
    }
    forall k ensures Count(FollowUpEvents(input, world, target), k) == AfterCount(input, world, target, k) {
      FollowUpCount(input, world, target, k);
    }
  }

  /* The cut comes in three variants that differ only in the facts they add
     about either side. Each property lemma calls the smallest one it needs,
     because every extra fact about the two sides makes the solver's work on
     the whole trace markedly more expensive. */

  /** A run that reaches the push, cut at the push into two stretches whose
      counts are known. */
  lemma CutAtPush(input: Input, world: World, target: string) returns (before: seq<Event>, after: seq<Event>)
    requires ReachesPush(input, world) && ResolveTarget(input, world) == Some(target)
    ensures ExpectedTrace(input, world) == before + [PushEvent(input, world, target)] + after
    ensures forall k :: Count(before, k) == BeforeCount(input, world, target, k)
    ensures forall k :: Count(after, k) == AfterCount(input, world, target, k)
  {
    before := BeforePush(input, world, target);
    after := FollowUpEvents(input, world, target);
    SplitAtPush(input, world, target);
    PhaseCounts(input, world, target);
  }

  /** The same cut, with the order of the checks and of the follow-up. */
  lemma CutOrdered(input: Input, world: World, target: string) returns (before: seq<Event>, after: seq<Event>)
    requires ReachesPush(input, world) && ResolveTarget(input, world) == Some(target)
    ensures ExpectedTrace(input, world) == before + [PushEvent(input, world, target)] + after
    ensures forall k :: Count(before, k) == BeforeCount(input, world, target, k)
    ensures forall k :: Count(after, k) == AfterCount(input, world, target, k)
    ensures Precedes(before, KRevParse, KGetEnvironment)
    ensures target == Production ==> Precedes(before, KConfirm, KGetEnvironment)
    ensures Precedes(after, KClearEnvironmentsCache, KRunActivate)
  {
    before := BeforePush(input, world, target);
    after := FollowUpEvents(input, world, target);
    SplitAtPush(input, world, target);
    PhaseCounts(input, world, target);
    ChecksBeforeLookup(input, world, target, KRevParse);
    if target == Production {
      ChecksBeforeLookup(input, world, target, KConfirm);
    }
    FollowUpOrder(input, world, target);
  }

  /** The same cut, with the specific events on either side. */
  lemma CutWithMembers(input: Input, world: World, target: string) returns (before: seq<Event>, after: seq<Event>)
    requires ReachesPush(input, world) && ResolveTarget(input, world) == Some(target)
    ensures ExpectedTrace(input, world) == before + [PushEvent(input, world, target)] + after
    ensures forall k :: Count(before, k) == BeforeCount(input, world, target, k)
    ensures forall k :: Count(after, k) == AfterCount(input, world, target, k)
    ensures && EnsureRemote(world.projectRoot.value, world.project.gitUrl) in before
            && SetSshCommand(NoWaitTransport(world.shouldWait).sshOptions) in before
            && (AsksParent(input, world, target) ==> AskInput(ParentQuestion, Production, world.environmentIds) in before)
            && (Confirm(ActivateQuestion(target)) in before <==> AsksActivation(input, world, target))
            && (target == Production ==> Confirm(MasterQuestion) in before)
    ensures && (!world.pushSucceeds ==> after == [])
            && (world.pushSucceeds ==> ClearEnvironmentsCache(world.project.id) in after)
            && (world.pushSucceeds && Activates(input, world, target) ==>
                  |after| > 0 && after[|after| - 1] == RunActivate(ActivateArgs(input, world, target)))
  {
    before := BeforePush(input, world, target);
    after := FollowUpEvents(input, world, target);
    SplitAtPush(input, world, target);
    PhaseCounts(input, world, target);
    BeforePushTransport(input, world, target);
    BeforePushQuestions(input, world, target);
    BeforePushActivationQuestion(input, world, target);
    FollowUpShape(input, world, target);
  }
}
