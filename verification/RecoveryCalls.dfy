/** Any sequence of the four Azure operations of one recovery, in any order, repeated at will,
    blocked or not, with the credentials edited in between
    (internal/azure/workload_identity_recovery.go). */
module RecoveryCalls {
  import opened OwnershipTags
  import opened Azure
  import opened TagWrites

  datatype Call = MarkInProgress | EnsureFederatedIdentityCredential | Commit | Finalize

  /** The remote resources one logical identity has. */
  datatype Remote = Remote(uamiId: string, uami: Option<Uami>, fics: seq<Fic>)

  /** The recovery that calls: its request, its target and its plan. */
  datatype Caller = Caller(request: Request, target: Ident, plan: Option<Plan>)

  datatype Outcome = Succeeded | BlockedCall

  predicate Admitted(k: Caller) { WellFormed(k.request, k.target.uid) }

  function StageAt(m: Remote, k: Caller): Option<Stage> { Load(m.uamiId, k.request, k.target, k.plan, m.uami) }

  predicate Exact(m: Remote, k: Caller) { k.plan.Some? && ExactFics(m.uamiId, k.target, k.plan.value.tuple, m.fics) }

  function WithTags(m: Remote, tags: Tags): Remote
    requires m.uami.Some?
  {
    m.(uami := Some(m.uami.value.(tags := tags)))
  }

  function Repaired(m: Remote, k: Caller): Remote
    requires k.plan.Some?
  {
    m.(fics := Upsert(m.uamiId, k.target.ficName, k.plan.value.tuple, m.fics))
  }

  /** What each operation does to the remote resources when nobody interferes with it. */
  function Effect(m: Remote, k: Caller, call: Call): (Remote, Outcome) {
    match StageAt(m, k)
    case None => (m, BlockedCall)
    case Some(s) =>
      match call
      case MarkInProgress =>
        if s == NotStarted then (WithTags(m, MergeTags(m.uami.value.tags, FenceTags(k.request, k.target.uid))), Succeeded)
        else (m, Succeeded)
      case EnsureFederatedIdentityCredential =>
        if s == NotStarted then (m, BlockedCall)
        else
          var m' := if s == InProgress then Repaired(m, k) else m;
          (m', if Exact(m', k) then Succeeded else BlockedCall)
      case Commit =>
        if s == NotStarted || !Exact(m, k) then (m, BlockedCall)
        else if s == InProgress then (WithTags(m, MergeTags(m.uami.value.tags, CommitTags(k.request, k.target.uid))), Succeeded)
        else (m, Succeeded)
      case Finalize =>
        if s == NotStarted || s == InProgress || !Exact(m, k) then (m, BlockedCall)
        else if s == CommittedFenced then (WithTags(m, WithoutFence(m.uami.value.tags)), Succeeded)
        else (m, Succeeded)
  }

  // ---------------------------------------------------------------- stages in order

  function Rank(s: Stage): nat {
    match s case NotStarted => 0 case InProgress => 1 case CommittedFenced => 2 case Complete => 3
  }

  /** The stage a call aims at; the credential call aims at none. */
  function Aim(call: Call): Option<Stage> {
    match call
    case MarkInProgress => Some(InProgress)
    case EnsureFederatedIdentityCredential => None
    case Commit => Some(CommittedFenced)
    case Finalize => Some(Complete)
  }

  /** The tags after the writes that lead from one stage to a later one, each made once and in order. */
  function TagsAfter(tags: Tags, k: Caller, from: Stage, to: Stage): Tags
    decreases Rank(to)
  {
    if Rank(to) <= Rank(from) then tags
    else
      match to
      case NotStarted => tags
      case InProgress => MergeTags(TagsAfter(tags, k, from, NotStarted), FenceTags(k.request, k.target.uid))
      case CommittedFenced => MergeTags(TagsAfter(tags, k, from, InProgress), CommitTags(k.request, k.target.uid))
      case Complete => WithoutFence(TagsAfter(tags, k, from, CommittedFenced))
  }

  /** One call at stage s ends at the same stage or at the next one, and then only if it is the call
      that aims there; a call at or past its stage writes no tags. */
  lemma OneCall(m: Remote, k: Caller, call: Call)
    requires Admitted(k) && StageAt(m, k).Some?
    ensures var s, m' := StageAt(m, k).value, Effect(m, k, call).0;
            StageAt(m', k).Some? && m'.uamiId == m.uamiId && m'.uami.Some? &&
            var s' := StageAt(m', k).value;
            (s' == s || (Rank(s') == Rank(s) + 1 && Aim(call) == Some(s'))) &&
            m'.uami.value == m.uami.value.(tags := TagsAfter(m.uami.value.tags, k, s, s')) &&
            (Aim(call).Some? && Rank(Aim(call).value) <= Rank(s) ==> m' == m) &&
            (Effect(m, k, call).1 == Succeeded && Aim(call).Some? ==> Rank(s') >= Rank(Aim(call).value))
  {
    hide Load;
    hide MergeTags;
    hide WithoutFence;
    hide ExactFics;
    hide Upsert;
    hide FenceTags;
    hide CommitTags;
    var s, u, tags := StageAt(m, k).value, m.uami.value, m.uami.value.tags;
    match call
    case MarkInProgress => if s == NotStarted { AfterMark(m.uamiId, k.request, k.target, k.plan, u, tags); }
    case EnsureFederatedIdentityCredential =>
    case Commit => if s == InProgress { AfterCommit(m.uamiId, k.request, k.target, k.plan, u, tags); }
    case Finalize => if s == CommittedFenced { AfterFinalize(m.uamiId, k.request, k.target, k.plan, u, tags); }
  }

  // ---------------------------------------------------------------- sequences

  /** A call of the recovery, or anybody's edit of the credentials. */
  datatype Event = Calls(call: Call) | Edits(fics: seq<Fic>)

  function Step(m: Remote, k: Caller, e: Event): Remote {
    match e
    case Calls(call) => Effect(m, k, call).0
    case Edits(fics) => m.(fics := fics)
  }

  function After(m: Remote, k: Caller, events: seq<Event>): Remote {
    if events == [] then m else Step(After(m, k, events[..|events| - 1]), k, events[|events| - 1])
  }

  lemma TagsCompose(tags: Tags, k: Caller, a: Stage, b: Stage, c: Stage)
    requires Rank(a) <= Rank(b) && (c == b || Rank(c) == Rank(b) + 1)
    ensures TagsAfter(TagsAfter(tags, k, a, b), k, b, c) == TagsAfter(tags, k, a, c)
  {
    hide MergeTags;
    hide WithoutFence;
  }

  /** The tags after any sequence are a function of the initial tags and the stage reached, and the
      stage reached is never earlier than the initial one. */
  lemma {:induction false} TagsAreAFunctionOfTheStage(m: Remote, k: Caller, events: seq<Event>)
    requires Admitted(k) && StageAt(m, k).Some?
    ensures var s, m' := StageAt(m, k).value, After(m, k, events);
            StageAt(m', k).Some? && m'.uamiId == m.uamiId && m'.uami.Some? &&
            var s' := StageAt(m', k).value;
            Rank(s) <= Rank(s') && m'.uami.value == m.uami.value.(tags := TagsAfter(m.uami.value.tags, k, s, s'))
    decreases |events|
  {
    hide Load;
    hide Effect;
    hide TagsAfter;
    var s := StageAt(m, k).value;
    assert TagsAfter(m.uami.value.tags, k, s, s) == m.uami.value.tags by { TagsStay(m.uami.value.tags, k, s); }
    if events != [] {
      var n := |events| - 1;
      TagsAreAFunctionOfTheStage(m, k, events[..n]);
      var m1 := After(m, k, events[..n]);
      var s1 := StageAt(m1, k).value;
      if events[n].Calls? {
        OneCall(m1, k, events[n].call);
        TagsCompose(m.uami.value.tags, k, s, s1, StageAt(After(m, k, events), k).value);
      }
    }
  }

  lemma TagsStay(tags: Tags, k: Caller, s: Stage)
    ensures TagsAfter(tags, k, s, s) == tags
  {
  }

  /** The stage never skips: between two consecutive states it stays or moves to the next one. */
  lemma StagesNeverSkip(m: Remote, k: Caller, events: seq<Event>, e: Event)
    requires Admitted(k) && StageAt(m, k).Some?
    ensures var m1 := After(m, k, events);
            StageAt(m1, k).Some? && StageAt(Step(m1, k, e), k).Some? &&
            var s, s' := StageAt(m1, k).value, StageAt(Step(m1, k, e), k).value;
            s' == s || (Rank(s') == Rank(s) + 1 && e.Calls? && Aim(e.call) == Some(s'))
  {
    hide Load;
    hide Effect;
    TagsAreAFunctionOfTheStage(m, k, events);
    if e.Calls? {
      OneCall(After(m, k, events), k, e.call);
    }
    hide After;
    hide TagsAfter;
  }

  /** Nobody else's tags are ever touched. */
  lemma {:induction false} UnrelatedTagsSurvive(tags: Tags, k: Caller, from: Stage, to: Stage)
    ensures SameUnrelated(TagsAfter(tags, k, from, to), tags)
    decreases Rank(to)
  {
    if Rank(to) > Rank(from) {
      match to
      case NotStarted =>
      case InProgress => UnrelatedTagsSurvive(tags, k, from, NotStarted);
      case CommittedFenced => UnrelatedTagsSurvive(tags, k, from, InProgress);
      case Complete => UnrelatedTagsSurvive(tags, k, from, CommittedFenced);
    }
  }

  lemma UnrelatedTagsSurviveAnySequence(m: Remote, k: Caller, events: seq<Event>)
    requires Admitted(k) && StageAt(m, k).Some?
    ensures After(m, k, events).uami.Some? && SameUnrelated(After(m, k, events).uami.value.tags, m.uami.value.tags)
  {
    TagsAreAFunctionOfTheStage(m, k, events);
    hide Load;
    hide After;
    hide TagsAfter;
    hide SameUnrelated;
    UnrelatedTagsSurvive(m.uami.value.tags, k, StageAt(m, k).value, StageAt(After(m, k, events), k).value);
  }

  /** Tags that are at no stage of this recovery are never written. */
  lemma {:induction false} ForeignMarkersAreLeftAlone(m: Remote, k: Caller, events: seq<Event>)
    requires StageAt(m, k).None?
    ensures After(m, k, events).uami == m.uami && After(m, k, events).uamiId == m.uamiId
    decreases |events|
  {
    hide Load;
    if events != [] {
      ForeignMarkersAreLeftAlone(m, k, events[..|events| - 1]);
    }
  }

  /** The UAMI is not the one the plan recorded. */
  predicate Replaced(u: Uami, plan: Plan) {
    !EqualFold(u.id, plan.id) || u.clientId != plan.clientId || u.principalId != plan.principalId || u.tenantId != plan.tenantId
  }

  /** On an identity that replaced the planned one every call is blocked and changes nothing. */
  lemma ReplacedIdentityIsRefused(m: Remote, k: Caller, call: Call)
    requires m.uami.Some? && k.plan.Some? && Replaced(m.uami.value, k.plan.value)
    ensures Effect(m, k, call) == (m, BlockedCall)
  {
    hide EqualFold;
    hide ExactFics;
    hide RecoverableUami;
    hide RecoveryStage;
    if StageAt(m, k).Some? {
      LoadIsForThePlannedIdentity(m.uamiId, k.request, k.target, k.plan, m.uami);
    }
  }

  lemma AfterOneMore(m: Remote, k: Caller, events: seq<Event>, e: Event)
    ensures After(m, k, events + [e]) == Step(After(m, k, events), k, e)
  {
    assert (events + [e])[..|events|] == events;
  }

  /** Each operation does its part when its turn has come. */
  lemma OnTurn(m: Remote, k: Caller)
    requires Admitted(k) && StageAt(m, k).Some?
    ensures var s := StageAt(m, k).value;
            (s == NotStarted ==>
               StageAt(Effect(m, k, MarkInProgress).0, k) == Some(InProgress) && Effect(m, k, MarkInProgress).0.fics == m.fics) &&
            (s == InProgress && RecoverableFics(m.uamiId, k.target, m.fics) ==>
               var m' := Effect(m, k, EnsureFederatedIdentityCredential).0; StageAt(m', k) == Some(InProgress) && Exact(m', k)) &&
            (s == InProgress && Exact(m, k) ==>
               var m' := Effect(m, k, Commit).0; StageAt(m', k) == Some(CommittedFenced) && Exact(m', k)) &&
            (s == CommittedFenced && Exact(m, k) ==>
               var m' := Effect(m, k, Finalize).0; StageAt(m', k) == Some(Complete) && Exact(m', k))
  {
    hide Load;
    hide MergeTags;
    hide WithoutFence;
    hide ExactFics;
    hide RecoverableFics;
    hide Upsert;
    hide FenceTags;
    hide CommitTags;
    var s, u, tags := StageAt(m, k).value, m.uami.value, m.uami.value.tags;
    match s
    case NotStarted => AfterMark(m.uamiId, k.request, k.target, k.plan, u, tags);
    case InProgress =>
      AfterCommit(m.uamiId, k.request, k.target, k.plan, u, tags);
      RepairIsExact(m.uamiId, k.target, k.plan.value.tuple, m.fics);
    case CommittedFenced => AfterFinalize(m.uamiId, k.request, k.target, k.plan, u, tags);
    case Complete =>
  }

  /** The order a recovery uses always reaches Complete with exactly the planned credential. */
  lemma InOrderReachesComplete(m: Remote, k: Caller)
    requires Admitted(k) && StageAt(m, k) == Some(NotStarted) && RecoverableFics(m.uamiId, k.target, m.fics)
    ensures var m' := After(m, k, [Calls(MarkInProgress)] + [Calls(EnsureFederatedIdentityCredential)] + [Calls(Commit)] + [Calls(Finalize)]);
            StageAt(m', k) == Some(Complete) && Exact(m', k)
  {
    hide Load;
    hide Effect;
    hide Exact;
    hide RecoverableFics;
    var e1, e2, e3, e4 := Calls(MarkInProgress), Calls(EnsureFederatedIdentityCredential), Calls(Commit), Calls(Finalize);
    AfterOneMore(m, k, [], e1);
    assert [] + [e1] == [e1];
    AfterOneMore(m, k, [e1], e2);
    AfterOneMore(m, k, [e1] + [e2], e3);
    AfterOneMore(m, k, [e1] + [e2] + [e3], e4);
    TagsAreAFunctionOfTheStage(m, k, [e1]);
    OnTurn(m, k);
    OnTurn(After(m, k, [e1]), k);
    OnTurn(After(m, k, [e1] + [e2]), k);
    OnTurn(After(m, k, [e1] + [e2] + [e3]), k);
  }
}
