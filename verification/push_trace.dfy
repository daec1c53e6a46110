/** The observable steps of one run of `environment:push`: every call the
    command makes into a service it does not own (git, the API client, the
    local project, the relationships cache, the question helper, another
    command) is recorded as an event, in the order the command makes it. */
module PushTrace {

  /** A value in the argument map handed to `environment:activate`. */
  datatype ArgValue = Str(s: string) | Flag(b: bool)

  datatype Event =
    | SetRepositoryDir(dir: string)                        // Git::setDefaultRepositoryDir
    | RevParse(ref: string)                                // git rev-parse --verify <ref>
    | GetCurrentBranch                                     // Git::getCurrentBranch
    | Confirm(question: string)                            // QuestionHelper::confirm
    | GetEnvironment(id: string)                           // Api::getEnvironment
    | Announce(line: string)                               // the "Pushing ... environment ..." line
    | GetEnvironments                                      // Api::getEnvironments
    | AskInput(question: string, suggested: string, candidates: seq<string>)  // QuestionHelper::askInput
    | EnsureRemote(root: string, gitUrl: string)           // LocalProject::ensureGitRemote
    | SetSshCommand(extraOptions: map<string, string>)     // Git::setSshCommand(Ssh::getSshCommand(...))
    | Push(args: seq<string>, env: map<string, string>)    // git push ...
    | ClearEnvironmentsCache(projectId: string)            // Api::clearEnvironmentsCache
    | ClearRelationships(sshUrl: string)                   // Relationships::clearCaches
    | RunActivate(options: seq<(string, ArgValue)>)         // runOtherCommand('environment:activate', ...)

  /** The constructor of an event, without its payload. */
  datatype Kind =
    | KSetRepositoryDir | KRevParse | KGetCurrentBranch | KConfirm | KGetEnvironment
    | KAnnounce | KGetEnvironments | KAskInput | KEnsureRemote | KSetSshCommand
    | KPush | KClearEnvironmentsCache | KClearRelationships | KRunActivate

  function KindOf(e: Event): Kind
  {
    match e
    case SetRepositoryDir(_) => KSetRepositoryDir
    case RevParse(_) => KRevParse
    case GetCurrentBranch => KGetCurrentBranch
    case Confirm(_) => KConfirm
    case GetEnvironment(_) => KGetEnvironment
    case Announce(_) => KAnnounce
    case GetEnvironments => KGetEnvironments
    case AskInput(_, _, _) => KAskInput
    case EnsureRemote(_, _) => KEnsureRemote
    case SetSshCommand(_) => KSetSshCommand
    case Push(_, _) => KPush
    case ClearEnvironmentsCache(_) => KClearEnvironmentsCache
    case ClearRelationships(_) => KClearRelationships
    case RunActivate(_) => KRunActivate
  }

  /** Events that reach the remote API, set up or use the git remote,
      mutate a cache or run another command. */
  predicate IsEffect(e: Event)
  {
    e.GetEnvironment? || e.GetEnvironments? || e.EnsureRemote? || e.SetSshCommand? ||
    e.Push? || e.ClearEnvironmentsCache? || e.ClearRelationships? || e.RunActivate?
  }

  predicate NoEffects(t: seq<Event>)
  {
    forall e :: e in t ==> !IsEffect(e)
  }

  /** How many events of kind `k` the trace holds. */
  function Count(t: seq<Event>, k: Kind): nat
    decreases |t|
  {
    if t == [] then 0
    else (if KindOf(t[0]) == k then 1 else 0) + Count(t[1..], k)
  }

  /** Every event of kind `earlier` comes before every event of kind `later`. */
  predicate Precedes(t: seq<Event>, earlier: Kind, later: Kind)
  {
    forall i, j :: 0 <= i < |t| && 0 <= j < |t| && KindOf(t[i]) == earlier && KindOf(t[j]) == later ==> i < j
  }

  lemma {:induction false} CountZero(t: seq<Event>, k: Kind)
    ensures Count(t, k) == 0 <==> forall i :: 0 <= i < |t| ==> KindOf(t[i]) != k
    decreases |t|
  {
    if t != [] {
      var tail := t[1..];
      CountZero(tail, k);
      assert forall i :: 1 <= i < |t| ==> t[i] == tail[i - 1];
    }
  }

  lemma {:induction false} CountConcat(a: seq<Event>, b: seq<Event>, k: Kind)
    ensures Count(a + b, k) == Count(a, k) + Count(b, k)
    decreases |a|
  {
    if a == [] {
      assert a + b == b;
    } else {
      CountConcat(a[1..], b, k);
      assert (a + b)[1..] == a[1..] + b;
    }
  }

  lemma CountSingle(e: Event, k: Kind)
    ensures Count([e], k) == if KindOf(e) == k then 1 else 0
  {
    assert [e][1..] == [];
  }

  /** The count over a trace cut around one event. */
  lemma CountAround(a: seq<Event>, e: Event, b: seq<Event>, k: Kind)
    ensures Count(a + [e] + b, k) == Count(a, k) + (if KindOf(e) == k then 1 else 0) + Count(b, k)
  {
    CountConcat(a + [e], b, k);
    CountConcat(a, [e], k);
    CountSingle(e, k);
  }

  /** A split point with no `later` event before it and no `earlier` event
      after it puts every `earlier` event before every `later` one. */
  lemma PrecedesSplit(a: seq<Event>, b: seq<Event>, earlier: Kind, later: Kind)
    requires Count(a, later) == 0 && Count(b, earlier) == 0
    ensures Precedes(a + b, earlier, later)
  {
    CountZero(a, later);
    CountZero(b, earlier);
  }

  /** Appending events none of which is of the earlier kind keeps the order. */
  lemma PrecedesExtend(a: seq<Event>, b: seq<Event>, earlier: Kind, later: Kind)
    requires Precedes(a, earlier, later) && Count(b, earlier) == 0
    ensures Precedes(a + b, earlier, later)
  {
    CountZero(b, earlier);
    var u := a + b;
    forall i, j | 0 <= i < |u| && 0 <= j < |u| && KindOf(u[i]) == earlier && KindOf(u[j]) == later
      ensures i < j
    {
      if j < |a| {
        assert u[i] == a[i] && u[j] == a[j];
      }
    }
  }

  /** Prepending events none of which is of the later kind keeps the order. */
  lemma PrecedesPrepend(a: seq<Event>, b: seq<Event>, earlier: Kind, later: Kind)
    requires Count(a, later) == 0 && Precedes(b, earlier, later)
    ensures Precedes(a + b, earlier, later)
  {
    CountZero(a, later);
    var u := a + b;
    forall i, j | 0 <= i < |u| && 0 <= j < |u| && KindOf(u[i]) == earlier && KindOf(u[j]) == later
      ensures i < j
    {
      if |a| <= i {
        assert u[i] == b[i - |a|] && u[j] == b[j - |a|];
      }
    }
  }
}
